/**
 What a body does while it runs: it makes the pushes of its task, one after the
 other and all of them, and each of them puts its task at the end of the queue
 it names.
 */
module QueueBodies {
  import opened Tasks
  import opened QueueProtocol
  import opened QueueInvariant
  import opened QueueTheorems

  /** The push goes into the call of the thread, unless its queue is out of reach. */
  predicate Makes(s: State, s': State, t: nat, q: nat, push: Push)
    requires t < |s.threads| <= |s'.threads|
  {
    if push.queue < |s.slots| && (push.queue == q || s.slots[push.queue].handles > 0) then
      var call := s'.threads[t].call;
      call.Pushing? && call.q == push.queue && call.task == push.task
    else s'.slots == s.slots && s'.threads[t].call == s.threads[t].call
  }

  /** Thread `t` enters a body: that of the first task of the queue it has, with all its pushes ahead. */
  predicate Enters(s: State, s': State, t: nat)
    requires t < |s.threads| <= |s'.threads|
  {
    var stage := s'.threads[t].stage;
    !s.threads[t].stage.Running? && stage.Running? ==>
      && s.threads[t].stage == Starting(stage.q) && stage.q < |s.slots| == |s'.slots|
      && (s.slots[stage.q].tasks != [] ==>
            && stage.left == s.slots[stage.q].tasks[0].pushes
            && s'.slots[stage.q].began == s.slots[stage.q].began + [s.slots[stage.q].tasks[0]])
  }

  /** It goes on in its body by making the next push, and leaves it with none ahead. */
  predicate Proceeds(s: State, s': State, t: nat)
    requires t < |s.threads| <= |s'.threads|
  {
    var stage, stage' := s.threads[t].stage, s'.threads[t].stage;
    stage.Running? ==>
      if !stage'.Running? then stage.left == [] && s.threads[t].call == NoCall
      else
        && stage'.q == stage.q
        && ( || stage'.left == stage.left
             || (stage.left != [] && stage'.left == stage.left[1..] && Makes(s, s', t, stage.q, stage.left[0])))
  }

  /** A push that is over has put its task at the end of its queue. */
  predicate Delivers(s: State, s': State, t: nat)
    requires t < |s.threads| <= |s'.threads|
  {
    var call := s.threads[t].call;
    call.Pushing? && s'.threads[t].call != call ==>
      && call.q < |s.slots| == |s'.slots|
      && s'.slots[call.q].tasks == s.slots[call.q].tasks + [call.task]
      && s'.slots[call.q].pushed == s.slots[call.q].pushed + [call.task]
  }

  ghost predicate BodyMoves(s: State, s': State, t: nat) {
    t < |s.threads| <= |s'.threads| && Enters(s, s', t) && Proceeds(s, s', t) && Delivers(s, s', t)
  }

  lemma OtherThread(s: State, s': State, t: nat)
    requires t < |s.threads| <= |s'.threads| && s'.threads[t] == s.threads[t]
    ensures BodyMoves(s, s', t)
  {
  }

  lemma CallInBody(s: State, s': State, u: nat, q: nat, t: nat)
    requires u < |s.threads| && q < |s.slots| && t < |s.threads| && CallStep(s, s', u, q)
    ensures BodyMoves(s, s', t)
  {
    if u != t { OtherThread(s, s', t); }
  }

  lemma RunInBody(s: State, s': State, u: nat, q: nat, t: nat)
    requires u < |s.threads| && q < |s.slots| && t < |s.threads| && RunStep(s, s', u, q)
    ensures BodyMoves(s, s', t)
  {
    if u != t { OtherThread(s, s', t); }
  }

  lemma ScriptInBody(s: State, s': State, u: nat, q: nat, t: nat)
    requires u < |s.threads| && q < |s.slots| && t < |s.threads| && ScriptStep(s, s', u, q)
    ensures BodyMoves(s, s', t)
  {
    if u != t { OtherThread(s, s', t); }
  }

  lemma IdleInBody(s: State, s': State, u: nat, t: nat)
    requires u < |s.threads| && t < |s.threads| && IdleStep(s, s', u)
    ensures BodyMoves(s, s', t)
  {
    if u != t { OtherThread(s, s', t); }
  }

  lemma StepInBody(s: State, s': State, t: nat)
    requires Next(s, s') && t < |s.threads|
    ensures BodyMoves(s, s', t)
  {
    hide BodyMoves, CallStep, RunStep, ScriptStep, IdleStep;
    if u: nat, q: nat :| u < |s.threads| && q < |s.slots| && CallStep(s, s', u, q) {
      CallInBody(s, s', u, q, t);
    } else if u: nat, q: nat :| u < |s.threads| && q < |s.slots| && RunStep(s, s', u, q) {
      RunInBody(s, s', u, q, t);
    } else if u: nat, q: nat :| u < |s.threads| && q < |s.slots| && ScriptStep(s, s', u, q) {
      ScriptInBody(s, s', u, q, t);
    } else if u: nat :| u < |s.threads| && IdleStep(s, s', u) {
      IdleInBody(s, s', u, t);
    } else {
      OtherThread(s, s', t);
    }
  }

  /**
   Along every execution: a body starts with all pushes of its task ahead,
   takes them off one by one by making them, ends with none left, and a push
   ends by putting its task at the end of its queue.
   */
  lemma BodyMakesItsPushes(run: seq<State>, i: nat, t: nat)
    requires Execution(run) && 0 < i < |run| && t < |run[i - 1].threads|
    ensures BodyMoves(run[i - 1], run[i], t)
  {
    hide BodyMoves, Next;
    assert Linked(run, i);
    StepInBody(run[i - 1], run[i], t);
  }

  /** A worker that starts on a queue finds a task in it, so the first clause is never idle. */
  lemma StarterFindsTask(run: seq<State>, i: nat, t: nat, q: nat)
    requires Execution(run) && i < |run| && t < |run[i].threads| && run[i].threads[t].stage == Starting(q)
    ensures q < |run[i].slots| && run[i].slots[q].tasks != []
  {
    AssertionsHold(run, i, t, q);
  }

  /** Thread `t` stays in one body from `i` to `j`. */
  ghost predicate InOneBody(run: seq<State>, i: nat, j: nat, t: nat) {
    forall k: nat | i <= k <= j < |run| :: t < |run[k].threads| && run[k].threads[t].stage.Running?
  }

  /** The pushes taken off between two moments of a body. */
  function Made(run: seq<State>, i: nat, j: nat, t: nat): seq<Push>
    requires i <= j < |run| && InOneBody(run, i, j, t)
  {
    if i == j then []
    else
      var before, after := run[j - 1].threads[t].stage.left, run[j].threads[t].stage.left;
      Made(run, i, j - 1, t) + before[..if |after| < |before| then |before| - |after| else 0]
  }

  /** What was ahead is what was made and what is ahead still; at the end of the body all of it was made. */
  lemma {:induction false} ScriptIsMadeInOrder(run: seq<State>, i: nat, j: nat, t: nat)
    requires Execution(run) && i <= j < |run| && InOneBody(run, i, j, t)
    ensures run[j].threads[t].stage.q == run[i].threads[t].stage.q
    ensures run[i].threads[t].stage.left == Made(run, i, j, t) + run[j].threads[t].stage.left
  {
    hide Execution;
    if i < j {
      ScriptIsMadeInOrder(run, i, j - 1, t);
      BodyMakesItsPushes(run, j, t);
    }
  }

  /** ntt_queue_acquire_if_live takes a reference exactly if the queue is alive. */
  lemma UpgradeExactlyIfAlive(run: seq<State>, i: nat, q: nat)
    requires Execution(run) && 0 < i < |run| && q < |run[i - 1].slots| && UpgradeStep(run[i - 1], run[i], q)
    ensures var v, w := run[i - 1].slots[q], run[i].slots[q];
            if v.life == Alive then w.refs == v.refs + 1 && w.upgrades == v.upgrades + 1 && w.life == Alive else w == v
  {
    Reachable(run, i - 1);
    assert SlotSound(run[i - 1], q);
  }

  /**
   ntt_queue_acquire, through a handle or from a body of the queue itself,
   finds a queue that is alive and leaves it one reference and one handle more.
   */
  lemma AcquireFindsAlive(run: seq<State>, i: nat, t: nat, q: nat)
    requires Execution(run) && 0 < i < |run| && q < |run[i - 1].slots|
    requires CopyStep(run[i - 1], run[i], q) || KeepStep(run[i - 1], run[i], t, q)
    ensures var v, w := run[i - 1].slots[q], run[i].slots[q];
            v.life == Alive && v.refs > 0 && w.refs == v.refs + 1 && w.handles == v.handles + 1 && w.life == Alive
  {
    var s := run[i - 1];
    Reachable(run, i - 1);
    assert SlotSound(s, q);
    if t < |s.threads| {
      ShareIsCovered(s, t, q);
    }
  }
}
