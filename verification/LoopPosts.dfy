/**
 Each side runs in the queue it was given (include/ntt/event.h:29-33,
 src/event.c:232-265, 317-347): an agent that was pushed to a queue makes its
 callbacks in the body of its own task there, so what queues promise of bodies
 holds of handlers and cancelled callbacks.
 */
module LoopPosts {
  import opened Tally
  import opened LoopProtocol
  import opened LoopInvariant
  import opened LoopWork
  import Q = QueueProtocol
  import QI = QueueInvariant
  import QT = QueueTheorems
  import E = EventProtocol
  import EI = EventInvariant
  import ES = EventSafety

  /** Where a queued agent stands in its queue. */
  predicate PlaceSound(s: Q.State, q: nat, place: nat, calling: bool) {
    q < |s.slots| && place < |s.slots[q].pushed| && (calling ==> OnTop(s, q, place))
  }

  predicate Calling(events: seq<E.State>, p: Post)
    requires IsPost(events, p)
  {
    Calls(events[p.event].agents[p.agent])
  }

  predicate PostSound(s: State, p: Post) {
    IsPost(s.events, p) ==>
      p in s.places && PlaceSound(s.queues, PostQueue(s.events, p), s.places[p], Calling(s.events, p))
  }

  /** Two agents in one queue are two tasks of it. */
  predicate PostsDiffer(s: State, p: Post, r: Post) {
    && IsPost(s.events, p) && IsPost(s.events, r) && p != r && p in s.places && r in s.places
    && PostQueue(s.events, p) == PostQueue(s.events, r)
    ==> s.places[p] != s.places[r]
  }

  ghost predicate PostsSound(s: State) {
    && (forall p :: PostSound(s, p))
    && (forall p, r :: PostsDiffer(s, p, r))
  }

  // ---------------------------------------------------------------------------
  // The queue goes on
  // ---------------------------------------------------------------------------

  /** A body that runs goes on running, and no other begins. */
  ghost predicate BodyStays(s: Q.State, s': Q.State, q: nat) {
    && q < |s.slots| <= |s'.slots| && s'.slots[q].began == s.slots[q].began
    && |s.threads| <= |s'.threads|
    && forall x | 0 <= x < |s.threads| && RunsIn(s.threads[x], q) :: RunsIn(s'.threads[x], q)
  }

  lemma ReferenceBodies(s: Q.State, s': Q.State, p: nat, q: nat)
    requires Q.ReferenceStep(s, s', p) && q < |s.slots| && s.slots[q].life != Q.Free
    ensures BodyStays(s, s', q)
  {
  }

  lemma CallBodies(s: Q.State, s': Q.State, t: nat, p: nat, q: nat)
    requires t < |s.threads| && p < |s.slots| && Q.CallStep(s, s', t, p) && q < |s.slots|
    ensures BodyStays(s, s', q)
  {
  }

  lemma IdleBodies(s: Q.State, s': Q.State, t: nat, q: nat)
    requires Q.IdleStep(s, s', t) && q < |s.slots|
    ensures BodyStays(s, s', q)
  {
  }

  lemma ScriptBodies(s: Q.State, s': Q.State, t: nat, p: nat, q: nat)
    requires t < |s.threads| && p < |s.slots| && Q.ScriptStep(s, s', t, p) && q < |s.slots|
    ensures BodyStays(s, s', q)
  {
  }

  lemma RunBodies(s: Q.State, s': Q.State, t: nat, p: nat, q: nat)
    requires t < |s.threads| && p < |s.slots| && Q.RunStep(s, s', t, p) && q < |s.slots|
    requires p == q ==> !Q.BeginStep(s, s', t, p) && !Q.NextTaskStep(s, s', t, p)
    ensures BodyStays(s, s', q)
  {
  }

  /** While a body runs in a queue no worker is about to start another. */
  lemma NoneBegins(s: Q.State, s': Q.State, t: nat, q: nat, x: nat)
    requires QI.Inv(s) && t < |s.threads| && q < |s.slots| && x < |s.threads| && RunsIn(s.threads[x], q)
    ensures !Q.BeginStep(s, s', t, q)
  {
    if Q.BeginStep(s, s', t, q) {
      QI.NoBodyElsewhere(s, t, q);
      SumMember(s.threads, x, QI.BodyOf(q));
    }
  }

  /** What is on top stays on top, as long as its body goes on. */
  lemma TopStays(s: Q.State, s': Q.State, q: nat, place: nat)
    requires OnTop(s, q, place) && BodyStays(s, s', q)
    ensures OnTop(s', q, place)
  {
    var x :| 0 <= x < |s.threads| && RunsIn(s.threads[x], q);
    assert RunsIn(s'.threads[x], q);
  }

  lemma ThreadKeepsTop(s: State, q': Q.State, t: nat, q: nat, place: nat)
    requires QI.Inv(s.queues) && ThreadStep(s, q', t) && OnTop(s.queues, q, place)
    requires !BodyIsOver(s, q)
    ensures OnTop(q', q, place)
  {
    hide QI.Inv, Q.IdleStep, Q.CallStep, Q.RunStep, Q.ScriptStep, BodyIsOver;
    var x: nat :| x < |s.queues.threads| && RunsIn(s.queues.threads[x], q);
    if Q.IdleStep(s.queues, q', t) {
      IdleBodies(s.queues, q', t, q);
    } else if p: nat :| p < |s.queues.slots| && Q.CallStep(s.queues, q', t, p) {
      CallBodies(s.queues, q', t, p, q);
    } else if p: nat :| RunStep(s, q', t, p) {
      NoneBegins(s.queues, q', t, q, x);
      RunBodies(s.queues, q', t, p, q);
    } else {
      var p: nat :| p < |s.queues.slots| && Q.ScriptStep(s.queues, q', t, p);
      ScriptBodies(s.queues, q', t, p, q);
    }
    TopStays(s.queues, q', q, place);
  }

  lemma ActsKeepTop(s: State, q': Q.State, q: nat, place: nat)
    requires QI.Inv(s.queues) && QueuesAct(s, q') && OnTop(s.queues, q, place) && !BodyIsOver(s, q)
    requires q < |s.queues.slots| && s.queues.slots[q].life != Q.Free
    ensures OnTop(q', q, place)
  {
    hide QI.Inv, BodyIsOver, ThreadStep, OnTop;
    if p: nat :| MayCreate(s) && Q.CreateStep(s.queues, q', p) {
      ReferenceBodies(s.queues, q', p, q);
      TopStays(s.queues, q', q, place);
    } else if p: nat :| HandleStep(s, q', p) {
      ReferenceBodies(s.queues, q', p, q);
      TopStays(s.queues, q', q, place);
    } else if t: nat :| ThreadStep(s, q', t) {
      ThreadKeepsTop(s, q', t, q, place);
    } else {
      assert BodyStays(s.queues, q', q);
      TopStays(s.queues, q', q, place);
    }
  }

  /** The tasks pushed to a queue that is alive stay on record. */
  lemma RecordStays(s: Q.State, s': Q.State, q: nat, place: nat)
    requires Q.Next(s, s') && q < |s.slots| && s.slots[q].life != Q.Free && place < |s.slots[q].pushed|
    ensures q < |s'.slots| && place < |s'.slots[q].pushed|
  {
    QT.HistoryGrows(s, s', q);
  }

  /** The queue of an agent that is a task of it is alive. */
  lemma PostIsAlive(s: State, p: Post)
    requires Inv(s) && IsPost(s.events, p)
    ensures var q := PostQueue(s.events, p); q < |s.queues.slots| && s.queues.slots[q].life == Q.Alive
  {
    hide QueuesFit, StartSound, HandlesSound, CrewSound, CountSound, EI.Inv;
    var v := s.events[p.event];
    PosterHasTenant(v, p.agent);
    TenantIsAlive(s, p.event, v.agents[p.agent].side);
  }

  lemma QueueKeepsPosts(s: State, s': State)
    requires Inv(s) && PostsSound(s) && QueueStep(s, s')
    ensures PostsSound(s')
  {
    hide Inv, QueuesAct, Tolled, OnTop, IsPost;
    forall p ensures PostSound(s', p) {
      assert PostSound(s, p);
      if IsPost(s.events, p) {
        QueueKeepsPost(s, s', p);
      }
    }
    forall p, r ensures PostsDiffer(s', p, r) {
      assert PostsDiffer(s, p, r);
    }
  }

  lemma QueueKeepsPost(s: State, s': State, p: Post)
    requires Inv(s) && PostSound(s, p) && IsPost(s.events, p) && QueueStep(s, s')
    ensures PostSound(s', p)
  {
    hide EventsSound, StartSound, HandlesSound, CrewSound, CountSound, QueuesAct, Tolled, OnTop, QI.Inv, IsPost;
    var q := PostQueue(s.events, p);
    PostIsAlive(s, p);
    ActsIsNext(s, s'.queues);
    RecordStays(s.queues, s'.queues, q, s.places[p]);
    if Calling(s.events, p) {
      assert !BodyIsOver(s, q);
      ActsKeepTop(s, s'.queues, q, s.places[p]);
    }
  }

  // ---------------------------------------------------------------------------
  // The events go on
  // ---------------------------------------------------------------------------

  /** What is pushed stays pushed and what is on top stays on top. */
  ghost predicate QueueCarries(s: Q.State, s': Q.State, q: nat) {
    BodyStays(s, s', q) && |s.slots[q].pushed| <= |s'.slots[q].pushed|
  }

  lemma PlaceIsCarried(s: Q.State, s': Q.State, q: nat, place: nat, calling: bool)
    requires PlaceSound(s, q, place, calling) && QueueCarries(s, s', q)
    ensures PlaceSound(s', q, place, calling)
  {
    hide OnTop;
    if calling {
      TopStays(s, s', q, place);
    }
  }

  lemma CloseCarries(s: Q.State, s': Q.State, p: nat, q: nat)
    requires Q.CloseStep(s, s', p) && q < |s.slots|
    ensures QueueCarries(s, s', q)
  {
  }

  lemma PushCarries(s: Q.State, s': Q.State, t: nat, p: nat, q: nat)
    requires Q.PushStep(s, s', t, p) && q < |s.slots|
    ensures QueueCarries(s, s', q) && |s'.slots[p].pushed| == |s.slots[p].pushed| + 1
  {
  }

  lemma TakenCarries(s: Q.State, s': Q.State, cfg: E.Config, q: nat)
    requires (cfg.readQueue ==> cfg.readAt < |s.slots|) && (cfg.writeQueue ==> cfg.writeAt < |s.slots|)
    requires var slots := Taken(s.slots, cfg.readQueue, cfg.readAt);
             s' == s.(slots := Taken(slots, cfg.writeQueue, cfg.writeAt))
    requires q < |s.slots|
    ensures QueueCarries(s, s', q)
  {
  }

  /** An agent that is queued after its step was queued before it, and a callback was about to start. */
  lemma MoverWasQueued(v: E.State, v': E.State, t: nat)
    requires t < |v.agents| && E.AgentStep(v, v', t) && Queued(v', t)
    ensures v'.cfg == v.cfg && Queued(v, t) && v'.agents[t].side == v.agents[t].side
    ensures Calls(v'.agents[t]) ==> Starts(v.agents[t])
  {
  }

  /** Of the agents that were there, those queued afterwards were queued before. */
  lemma QueuedFollows(v: E.State, v': E.State, t: nat, u: nat)
    requires t < |v.agents| && E.AgentStep(v, v', t) && u < |v.agents| && Queued(v', u)
    ensures v'.cfg == v.cfg && Queued(v, u) && v'.agents[u].side == v.agents[u].side
    ensures Calls(v'.agents[u]) ==> Calls(v.agents[u]) || (u == t && Starts(v.agents[u]))
  {
    hide E.AgentStep;
    if u == t {
      MoverWasQueued(v, v', t);
    } else {
      ES.StepShape(v, v', t);
      CfgStays(v, v', t);
    }
  }

  lemma CfgStays(v: E.State, v': E.State, t: nat)
    requires t < |v.agents| && E.AgentStep(v, v', t)
    ensures v'.cfg == v.cfg
  {
  }

  /** Whatever an agent spawns is a task for a queue the event has. */
  lemma SpawnIsPost(v: E.State, v': E.State, t: nat)
    requires EI.Inv(v) && t < |v.agents| && E.AgentStep(v, v', t) && |v'.agents| > |v.agents|
    ensures |v'.agents| == |v.agents| + 1 && Queued(v', |v.agents|) && Starts(v'.agents[|v.agents|])
  {
    assert EI.AgentSound(v, v.agents[t]);
  }

  /** A post after an agent step, apart from the one it spawned, was a post before. */
  lemma PostFollows(s: State, s': State, e: nat, t: nat, p: Post)
    requires EventsSound(s.events) && AgentStep(s, s', e, t) && IsPost(s'.events, p)
    requires p.event != e || p.agent < |s.events[e].agents|
    ensures IsPost(s.events, p) && PostQueue(s'.events, p) == PostQueue(s.events, p)
    ensures Calling(s'.events, p) ==>
              Calling(s.events, p) || (p == Post(e, t) && Starts(s.events[e].agents[t]))
  {
    hide EI.Inv, E.AgentStep;
    if p.event == e {
      QueuedFollows(s.events[e], s'.events[e], t, p.agent);
    }
  }

  lemma AgentKeepsPost(s: State, s': State, e: nat, t: nat, p: Post)
    requires EventsSound(s.events) && AgentStep(s, s', e, t) && PostSound(s, p) && IsPost(s'.events, p)
    requires p.event != e || p.agent < |s.events[e].agents|
    requires IsPost(s.events, p) ==> QueueCarries(s.queues, s'.queues, PostQueue(s.events, p))
    requires p in s.places ==> p in s'.places && s'.places[p] == s.places[p]
    ensures PostSound(s', p)
  {
    PostFollows(s, s', e, t, p);
    hide E.AgentStep, OnTop, IsPost, Posts, EventsSound, QueueCarries;
    var q := PostQueue(s.events, p);
    assert PlaceSound(s.queues, q, s.places[p], Calling(s'.events, p));
    PlaceIsCarried(s.queues, s'.queues, q, s.places[p], Calling(s'.events, p));
  }

  /** How many tasks have been pushed to a queue. */
  function Record(s: Q.State, q: nat): nat {
    if q < |s.slots| then |s.slots[q].pushed| else 0
  }

  /** What an agent step does to the queues carries every place. */
  lemma AgentCarries(s: State, s': State, e: nat, t: nat, q: nat)
    requires AgentStep(s, s', e, t) && q < |s.queues.slots|
    ensures QueueCarries(s.queues, s'.queues, q)
  {
    hide E.AgentStep, QueueCarries, Q.CloseStep, Q.PushStep;
    var a := s.events[e].agents[t];
    if |s'.events[e].agents| > |s.events[e].agents| {
      var r := PostQueue(s'.events, Post(e, |s.events[e].agents|));
      var x: nat :| MayAct(s, x) && Q.PushStep(s.queues, s'.queues, x, r);
      PushCarries(s.queues, s'.queues, x, r, q);
    } else if ReleasesQueue(a) {
      CloseCarries(s.queues, s'.queues, ReleasedQueue(a), q);
    } else {
      SameCarries(s.queues, q);
    }
  }

  lemma SameCarries(s: Q.State, q: nat)
    requires q < |s.slots|
    ensures QueueCarries(s, s, q)
  {
  }

  /** The place of the agent that is spawned is the next one of its queue. */
  lemma SpawnedPost(s: State, s': State, e: nat, t: nat)
    requires EventsSound(s.events) && AgentStep(s, s', e, t) && |s'.events[e].agents| > |s.events[e].agents|
    ensures |s'.events[e].agents| == |s.events[e].agents| + 1
    ensures var p := Post(e, |s.events[e].agents|);
            && PostSound(s', p) && IsPost(s'.events, p) && p in s'.places
            && s'.places[p] == Record(s.queues, PostQueue(s'.events, p))
  {
    hide E.AgentStep, EI.Inv, Q.PushStep, OnTop;
    SpawnIsPost(s.events[e], s'.events[e], t);
    var p := Post(e, |s.events[e].agents|);
    var q := PostQueue(s'.events, p);
    var x: nat :| MayAct(s, x) && Q.PushStep(s.queues, s'.queues, x, q);
    PushCarries(s.queues, s'.queues, x, q, q);
  }

  predicate IsNew(s: State, e: nat, p: Post) {
    e < |s.events| && p.event == e && p.agent >= |s.events[e].agents|
  }

  lemma OldPlaces(s: State, s': State, e: nat, t: nat, p: Post)
    requires AgentStep(s, s', e, t) && !IsNew(s, e, p)
    ensures p in s.places ==> p in s'.places && s'.places[p] == s.places[p]
  {
    hide E.AgentStep;
  }

  lemma AgentKeepsEach(s: State, s': State, e: nat, t: nat, p: Post)
    requires EventsSound(s.events) && PostsSound(s) && AgentStep(s, s', e, t)
    ensures PostSound(s', p)
  {
    hide EventsSound, AgentStep, IsPost, PlaceSound, QueueCarries;
    assert PostSound(s, p);
    if !IsPost(s'.events, p) {
    } else if IsNew(s, e, p) {
      NewPostIsSpawned(s, s', e, t, p);
      SpawnedPost(s, s', e, t);
    } else {
      PostFollowsOld(s, s', e, t, p);
    }
  }

  lemma NewPostIsSpawned(s: State, s': State, e: nat, t: nat, p: Post)
    requires EventsSound(s.events) && AgentStep(s, s', e, t) && IsPost(s'.events, p) && IsNew(s, e, p)
    ensures |s'.events[e].agents| > |s.events[e].agents| && p == Post(e, |s.events[e].agents|)
  {
    if |s'.events[e].agents| > |s.events[e].agents| {
      SpawnIsPost(s.events[e], s'.events[e], t);
    }
  }

  lemma PostFollowsOld(s: State, s': State, e: nat, t: nat, p: Post)
    requires EventsSound(s.events) && PostSound(s, p) && AgentStep(s, s', e, t)
    requires IsPost(s'.events, p) && !IsNew(s, e, p)
    ensures PostSound(s', p) && IsPost(s.events, p) && PostQueue(s'.events, p) == PostQueue(s.events, p)
    ensures p in s.places && p in s'.places && s'.places[p] == s.places[p] < Record(s.queues, PostQueue(s.events, p))
  {
    assert e < |s.events| by { hide E.AgentStep; }
    PostFollows(s, s', e, t, p);
    OldPlaces(s, s', e, t, p);
    AgentCarries(s, s', e, t, PostQueue(s.events, p));
    AgentKeepsPost(s, s', e, t, p);
  }

  lemma AgentKeepsApart(s: State, s': State, e: nat, t: nat, p: Post, r: Post)
    requires EventsSound(s.events) && PostsSound(s) && AgentStep(s, s', e, t)
    ensures PostsDiffer(s', p, r)
  {
    hide EventsSound, AgentStep, IsPost, PlaceSound, PostSound;
    assert PostSound(s, p) && PostSound(s, r) && PostsDiffer(s, p, r);
    if IsPost(s'.events, p) && IsPost(s'.events, r) {
      if IsNew(s, e, p) {
        NewPostIsSpawned(s, s', e, t, p);
        SpawnedPost(s, s', e, t);
      } else {
        PostFollowsOld(s, s', e, t, p);
      }
      if IsNew(s, e, r) {
        NewPostIsSpawned(s, s', e, t, r);
        SpawnedPost(s, s', e, t);
      } else {
        PostFollowsOld(s, s', e, t, r);
      }
    }
  }

  lemma AgentKeepsPosts(s: State, s': State, e: nat, t: nat)
    requires EventsSound(s.events) && PostsSound(s) && AgentStep(s, s', e, t)
    ensures PostsSound(s')
  {
    hide EventsSound, AgentStep, PostSound, PostsDiffer;
    forall p ensures PostSound(s', p) {
      AgentKeepsEach(s, s', e, t, p);
    }
    forall p, r ensures PostsDiffer(s', p, r) {
      AgentKeepsApart(s, s', e, t, p, r);
    }
  }

  // ---------------------------------------------------------------------------
  // The rest
  // ---------------------------------------------------------------------------

  /** The same posts, at the same places, in queues that carry them. */
  lemma SamePosts(s: State, s': State)
    requires PostsSound(s) && s'.places == s.places
    requires forall p | IsPost(s'.events, p) ::
               && IsPost(s.events, p) && PostQueue(s'.events, p) == PostQueue(s.events, p)
               && Calling(s'.events, p) == Calling(s.events, p)
    requires forall q: nat | q < |s.queues.slots| :: QueueCarries(s.queues, s'.queues, q)
    ensures PostsSound(s')
  {
    hide IsPost, OnTop, QueueCarries;
    forall p ensures PostSound(s', p) {
      assert PostSound(s, p);
      if IsPost(s'.events, p) {
        PlaceIsCarried(s.queues, s'.queues, PostQueue(s.events, p), s.places[p], Calling(s.events, p));
      }
    }
    forall p, r ensures PostsDiffer(s', p, r) {
      assert PostsDiffer(s, p, r);
    }
  }

  lemma OpenKeepsPosts(s: State, s': State, e: nat, cfg: E.Config)
    requires EventsSound(s.events) && PostsSound(s) && OpenStep(s, s', e, cfg)
    ensures PostsSound(s')
  {
    forall p | IsPost(s'.events, p)
      ensures && IsPost(s.events, p) && PostQueue(s'.events, p) == PostQueue(s.events, p)
              && Calling(s'.events, p) == Calling(s.events, p)
    {
      if p.event == e {
        hide EI.Inv;
        PosterHasTenant(s.events[e], p.agent);
      }
    }
    forall q: nat | q < |s.queues.slots| ensures QueueCarries(s.queues, s'.queues, q) {
      TakenCarries(s.queues, s'.queues, cfg, q);
    }
    SamePosts(s, s');
  }

  lemma ArrivalKeepsPosts(s: State, s': State, e: nat, agent: E.Agent)
    requires PostsSound(s) && ArriveStep(s, s', e, agent)
    ensures PostsSound(s')
  {
    forall q: nat | q < |s.queues.slots| ensures QueueCarries(s.queues, s'.queues, q) {
      SameCarries(s.queues, q);
    }
    SamePosts(s, s');
  }

  lemma GrowKeepsPosts(s: State, s': State, e: E.State)
    requires PostsSound(s) && GrowStep(s, s', e)
    ensures PostsSound(s')
  {
    forall q: nat | q < |s.queues.slots| ensures QueueCarries(s.queues, s'.queues, q) {
      SameCarries(s.queues, q);
    }
    SamePosts(s, s');
  }

  lemma CrewKeepsPosts(s: State, s': State)
    requires PostsSound(s) && s'.events == s.events && s'.queues == s.queues && s'.places == s.places
    ensures PostsSound(s')
  {
    forall q: nat | q < |s.queues.slots| ensures QueueCarries(s.queues, s'.queues, q) {
      SameCarries(s.queues, q);
    }
    SamePosts(s, s');
  }

  lemma EventKeepsPosts(s: State, s': State, e: nat)
    requires Inv(s) && PostsSound(s) && EventStep(s, s', e)
    ensures PostsSound(s')
  {
    hide EventsSound, PostsSound, OpenStep, AgentStep, ArriveStep, Tolled, QueuesFit, StartSound, HandlesSound;
    if cfg :| OpenStep(s, s', e, cfg) {
      OpenKeepsPosts(s, s', e, cfg);
    } else if t: nat :| AgentStep(s, s', e, t) {
      AgentKeepsPosts(s, s', e, t);
    } else {
      var agent :| ArriveStep(s, s', e, agent);
      ArrivalKeepsPosts(s, s', e, agent);
    }
  }

  lemma NextKeepsPosts(s: State, s': State)
    requires Inv(s) && PostsSound(s) && Next(s, s')
    ensures PostsSound(s')
  {
    hide Inv, PostsSound, QueueStep, EventStep;
    if QueueStep(s, s') {
      QueueKeepsPosts(s, s');
    } else if e: nat :| EventStep(s, s', e) {
      EventKeepsPosts(s, s', e);
    } else if e :| GrowStep(s, s', e) {
      GrowKeepsPosts(s, s', e);
    } else {
      CrewKeepsPosts(s, s');
    }
  }

  lemma {:induction false} PostsReachable(run: seq<State>, i: nat)
    requires Execution(run) && i < |run|
    ensures PostsSound(run[i])
  {
    hide Inv, Next;
    if i > 0 {
      PostsReachable(run, i - 1);
      Reachable(run, i - 1);
      assert Linked(run, i);
      NextKeepsPosts(run[i - 1], run[i]);
    }
  }

  // ---------------------------------------------------------------------------
  // Each side runs in the queue it was given
  // ---------------------------------------------------------------------------

  /**
   A handler or a cancelled callback of an event with queues runs in the body
   of its own task in the queue of its side: that body is running, it is the
   last one begun there, and no other thread runs a body of that queue.
   */
  lemma CallbackIsTheBody(run: seq<State>, i: nat, p: Post) returns (x: nat)
    requires Execution(run) && i < |run| && IsPost(run[i].events, p) && Calling(run[i].events, p)
    ensures var s, q := run[i], PostQueue(run[i].events, p);
            && p in s.places && q < |s.queues.slots| && |s.queues.slots[q].began| == s.places[p] + 1
            && x < |s.queues.threads| && RunsIn(s.queues.threads[x], q)
            && forall y | 0 <= y < |s.queues.threads| && RunsIn(s.queues.threads[y], q) :: y == x
  {
    hide EventsSound, StartSound, HandlesSound, CrewSound, CountSound, PostsDiffer, IsPost;
    PostsReachable(run, i);
    Reachable(run, i);
    var s := run[i];
    assert PostSound(s, p);
    var q := PostQueue(s.events, p);
    x :| 0 <= x < |s.queues.threads| && RunsIn(s.queues.threads[x], q);
    forall y: nat | y < |s.queues.threads| && RunsIn(s.queues.threads[y], q) ensures y == x {
      OneBody(s.queues, q, x, y);
    }
  }

  lemma OneBody(s: Q.State, q: nat, x: nat, y: nat)
    requires QI.Inv(s) && q < |s.slots| && x < |s.threads| && y < |s.threads|
    requires RunsIn(s.threads[x], q) && RunsIn(s.threads[y], q)
    ensures x == y
  {
    assert QI.SlotSound(s, q);
    if x < y {
      SumPair(s.threads, x, y, QI.TokenOf(q));
    } else if y < x {
      SumPair(s.threads, y, x, QI.TokenOf(q));
    }
  }

  /**
   Callbacks given the same queue never run at once: not two sides of one
   event, not sides of two events, not a handler and a cancelled callback.
   */
  lemma CallbacksExclude(run: seq<State>, i: nat, p: Post, r: Post)
    requires Execution(run) && i < |run| && IsPost(run[i].events, p) && IsPost(run[i].events, r)
    requires Calling(run[i].events, p) && Calling(run[i].events, r)
    requires PostQueue(run[i].events, p) == PostQueue(run[i].events, r)
    ensures p == r
  {
    hide IsPost;
    var x := CallbackIsTheBody(run, i, p);
    var y := CallbackIsTheBody(run, i, r);
    PostsReachable(run, i);
    assert PostsDiffer(run[i], p, r);
  }
}
