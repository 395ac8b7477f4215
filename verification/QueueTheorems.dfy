/** What the queue protocol promises, for every execution, every interleaving and every limit. */
module QueueTheorems {
  import opened Tally
  import opened QueueProtocol
  import opened QueueInvariant

  // ---------------------------------------------------------------------------
  // The run token
  // ---------------------------------------------------------------------------

  /** Thread `t` may run `q`, or is about to hand it to the combine. */
  predicate MayRun(s: State, t: nat, q: nat)
    requires t < |s.threads|
  {
    StageHasToken(s.threads[t].stage, q) || CallHasToken(s.threads[t].call, q)
  }

  /**
   A queue has tasks exactly while the right to run it exists: with a pusher
   about to wake it, in the combine, or with a worker.
   */
  lemma RunTokenExists(run: seq<State>, i: nat, q: nat)
    requires Execution(run) && i < |run| && q < |run[i].slots|
    ensures var s := run[i];
            s.slots[q].tasks != [] <==> q in s.combine || exists t: nat :: t < |s.threads| && MayRun(s, t, q)
  {
    var s := run[i];
    Reachable(run, i);
    assert SlotSound(s, q);
    if Sum(s.threads, TokenOf(q)) > 0 {
      var t := SumWitness(s.threads, TokenOf(q));
      assert MayRun(s, t, q);
    }
    if t: nat :| t < |s.threads| && MayRun(s, t, q) {
      SumMember(s.threads, t, TokenOf(q));
    }
  }

  /**
   The right is one: no two threads have it, no thread while the queue is
   linked, and the queue is never linked twice.
   */
  lemma RunTokenIsOne(run: seq<State>, i: nat, q: nat)
    requires Execution(run) && i < |run| && q < |run[i].slots|
    ensures var s := run[i];
            && (forall t: nat, u: nat | t < |s.threads| && u < |s.threads| && MayRun(s, t, q) && MayRun(s, u, q) ::
                t == u)
            && (forall t: nat | t < |s.threads| && MayRun(s, t, q) :: q !in s.combine)
            && (forall j, k | 0 <= j < |s.combine| && 0 <= k < |s.combine| && s.combine[j] == q && s.combine[k] == q ::
                j == k)
  {
    var s := run[i];
    Reachable(run, i);
    assert SlotSound(s, q);
    forall t: nat, u: nat | t < u < |s.threads| ensures !(MayRun(s, t, q) && MayRun(s, u, q)) {
      SumPair(s.threads, t, u, TokenOf(q));
    }
    forall t: nat | t < |s.threads| && MayRun(s, t, q) ensures q !in s.combine {
      SumMember(s.threads, t, TokenOf(q));
    }
    forall j, k | 0 <= j < k < |s.combine| ensures !(s.combine[j] == q && s.combine[k] == q) {
      LinkedOnce(s.combine, j, k, q);
    }
  }

  lemma LinkedOnce(xs: seq<nat>, j: nat, k: nat, q: nat)
    requires j < k < |xs| && multiset(xs)[q] <= 1
    ensures !(xs[j] == q && xs[k] == q)
  {
    assert xs == xs[..k] + xs[k..];
    assert xs[j] in multiset(xs[..k]) && xs[k] in multiset(xs[k..]);
  }

  /** Bodies of one queue never overlap. */
  lemma BodiesExclude(run: seq<State>, i: nat, q: nat, t: nat, u: nat)
    requires Execution(run) && i < |run| && q < |run[i].slots| && t < |run[i].threads| && u < |run[i].threads|
    requires run[i].threads[t].stage.Running? && run[i].threads[t].stage.q == q
    requires run[i].threads[u].stage.Running? && run[i].threads[u].stage.q == q
    ensures t == u
  {
    RunTokenIsOne(run, i, q);
    assert MayRun(run[i], t, q) && MayRun(run[i], u, q);
  }

  /** What ntt_combine_push, ntt_queue_svc, ntt_queue_next and ntt_queue_acquire assert. */
  lemma AssertionsHold(run: seq<State>, i: nat, t: nat, q: nat)
    requires Execution(run) && i < |run| && t < |run[i].threads| && MayRun(run[i], t, q)
    ensures q < |run[i].slots| && run[i].slots[q].tasks != [] && q !in run[i].combine && run[i].slots[q].refs > 0
  {
    var s := run[i];
    Reachable(run, i);
    assert ThreadSound(s.threads[t], |s.slots|);
    assert SlotSound(s, q);
    ShareIsCovered(s, t, q);
  }

  // ---------------------------------------------------------------------------
  // Order
  // ---------------------------------------------------------------------------

  /**
   The bodies started are the first of the tasks pushed, in the order of the
   pushes; the rest is still in the list.
   */
  lemma TasksRunInOrder(run: seq<State>, i: nat, q: nat)
    requires Execution(run) && i < |run| && q < |run[i].slots|
    ensures var v := run[i].slots[q];
            && v.began <= v.pushed && |v.tasks| <= |v.pushed|
            && |v.pushed| - |v.tasks| <= |v.began| <= |v.pushed| - |v.tasks| + 1
            && v.pushed == v.pushed[..|v.pushed| - |v.tasks|] + v.tasks
  {
    var s := run[i];
    Reachable(run, i);
    assert SlotSound(s, q);
    BodiesWithinTokens(s, q);
  }

  lemma BodiesWithinTokens(s: State, q: nat)
    requires Inv(s) && q < |s.slots|
    ensures CountsOf(s.threads, q).bodies <= 1
  {
    assert SlotSound(s, q);
    if Sum(s.threads, BodyOf(q)) > 0 {
      var t := SumWitness(s.threads, BodyOf(q));
      var others := s.threads[t := s.threads[t].(stage := Scanning)];
      SumUpdate(s.threads, t, others[t], BodyOf(q));
      if Sum(others, BodyOf(q)) > 0 {
        var u := SumWitness(others, BodyOf(q));
        if u < t {
          SumPair(s.threads, u, t, TokenOf(q));
        } else {
          SumPair(s.threads, t, u, TokenOf(q));
        }
      }
    }
  }

  ghost predicate SameTenant(s: State, s': State, q: nat) {
    q < |s.slots| && q < |s'.slots| && s'.slots[q].tenant == s.slots[q].tenant
  }

  /** A slot as a step may leave it: the tenant is the same and its history has grown, or the tenant is new. */
  predicate GoesOn(v: Slot, w: Slot) {
    || (w.tenant == v.tenant && v.pushed <= w.pushed && v.began <= w.began)
    || (w.tenant == v.tenant + 1 && v.life == Free && w == Slot(Alive, w.tenant, 1, 1, 0, false, 0, [], [], []))
  }

  lemma ReferenceExtends(s: State, s': State, p: nat)
    requires p < |s.slots| && ReferenceStep(s, s', p)
    ensures |s'.slots| == |s.slots| && forall q | 0 <= q < |s.slots| :: GoesOn(s.slots[q], s'.slots[q])
  {
  }

  lemma CallExtends(s: State, s': State, t: nat, p: nat)
    requires t < |s.threads| && p < |s.slots| && CallStep(s, s', t, p)
    ensures |s'.slots| == |s.slots| && forall q | 0 <= q < |s.slots| :: GoesOn(s.slots[q], s'.slots[q])
  {
  }

  lemma RunExtends(s: State, s': State, t: nat, p: nat)
    requires t < |s.threads| && p < |s.slots| && RunStep(s, s', t, p)
    ensures |s'.slots| == |s.slots| && forall q | 0 <= q < |s.slots| :: GoesOn(s.slots[q], s'.slots[q])
  {
  }

  lemma ScriptExtends(s: State, s': State, t: nat, p: nat)
    requires t < |s.threads| && p < |s.slots| && ScriptStep(s, s', t, p)
    ensures |s'.slots| == |s.slots| && forall q | 0 <= q < |s.slots| ::
            GoesOn(s.slots[q], s'.slots[q]) && s'.slots[q].refs == s.slots[q].refs
  {
  }

  /** What was pushed and what was started is never rewritten while the tenancy lasts. */
  lemma HistoryGrows(s: State, s': State, q: nat)
    requires Next(s, s') && q < |s.slots|
    ensures |s.slots| <= |s'.slots| && GoesOn(s.slots[q], s'.slots[q])
  {
    hide ReferenceStep, CallStep, RunStep, ScriptStep;
    if p: nat :| p < |s.slots| && ReferenceStep(s, s', p) {
      ReferenceExtends(s, s', p);
    } else if t: nat, p: nat :| t < |s.threads| && p < |s.slots| && CallStep(s, s', t, p) {
      CallExtends(s, s', t, p);
    } else if t: nat, p: nat :| t < |s.threads| && p < |s.slots| && RunStep(s, s', t, p) {
      RunExtends(s, s', t, p);
    } else if t: nat, p: nat :| t < |s.threads| && p < |s.slots| && ScriptStep(s, s', t, p) {
      ScriptExtends(s, s', t, p);
    }
  }

  lemma {:induction false} TenantsGrowAlong(run: seq<State>, i: nat, j: nat, q: nat)
    requires Execution(run) && i <= j < |run| && q < |run[i].slots|
    ensures q < |run[j].slots| && run[i].slots[q].tenant <= run[j].slots[q].tenant
  {
    if i < j {
      TenantsGrowAlong(run, i, j - 1, q);
      assert Linked(run, j);
      HistoryGrows(run[j - 1], run[j], q);
    }
  }

  /**
   Every task runs exactly once: the place of a task in the order of pushes is
   settled when it is pushed, the body started in that place is that task, and
   neither is ever revised while the tenancy lasts.
   */
  lemma {:induction false} EachTaskOnce(run: seq<State>, i: nat, j: nat, q: nat)
    requires Execution(run) && i <= j < |run| && SameTenant(run[i], run[j], q)
    ensures run[i].slots[q].pushed <= run[j].slots[q].pushed
    ensures run[i].slots[q].began <= run[j].slots[q].began <= run[j].slots[q].pushed
  {
    TasksRunInOrder(run, j, q);
    if i < j {
      TenantsGrowAlong(run, i, j - 1, q);
      TenantsGrowAlong(run, j - 1, j, q);
      EachTaskOnce(run, i, j - 1, q);
      assert Linked(run, j);
      HistoryGrows(run[j - 1], run[j], q);
    }
  }

  // ---------------------------------------------------------------------------
  // References
  // ---------------------------------------------------------------------------

  /** The references of the run: with a thread that runs or wakes the queue, or with its link. */
  ghost function RunReferences(s: State, q: nat): nat {
    Sum(s.threads, RunRefOf(q)) + Links(s, q)
  }

  function RunRefOf(q: nat): Thread -> nat {
    (x: Thread) => One(Holds(x.stage, q)) + One(x.call.Linking? && x.call.q == q)
  }

  function BorrowOf(q: nat): Thread -> nat {
    (x: Thread) => One(Borrows(x.call, q))
  }

  lemma {:induction false} RefsSplit(threads: seq<Thread>, q: nat)
    ensures Sum(threads, RefOf(q)) == Sum(threads, RunRefOf(q)) + Sum(threads, BorrowOf(q))
  {
    if threads != [] {
      RefsSplit(threads[..|threads| - 1], q);
    }
  }

  /**
   `external_refs` is the handles, the upgrades of the timer service, those of
   either that a push is going through, the self reference of armed timers and
   the references of the run.
   */
  lemma ReferencesConserved(run: seq<State>, i: nat, q: nat)
    requires Execution(run) && i < |run| && q < |run[i].slots|
    ensures var s := run[i]; var v := s.slots[q];
            v.refs == v.handles + v.upgrades + Sum(s.threads, BorrowOf(q)) + One(v.selfRef) + RunReferences(s, q)
  {
    Reachable(run, i);
    assert SlotSound(run[i], q);
    RefsSplit(run[i].threads, q);
  }

  /** A queue the timer service has upgraded, or is pushing to, is alive. */
  lemma UpgradedQueueIsAlive(run: seq<State>, i: nat, q: nat)
    requires Execution(run) && i < |run| && q < |run[i].slots|
    requires run[i].slots[q].upgrades > 0 || Sum(run[i].threads, BorrowOf(q)) > 0
    ensures run[i].slots[q].life == Alive
  {
    Reachable(run, i);
    assert SlotSound(run[i], q);
    RefsSplit(run[i].threads, q);
  }

  /** The last release finds nothing: what ntt_queue_deinit asserts, and every task has run. */
  lemma LastReleaseFindsNothing(run: seq<State>, i: nat, q: nat)
    requires Execution(run) && i < |run| && q < |run[i].slots| && run[i].slots[q].life != Alive
    ensures var v := run[i].slots[q];
            v.refs == 0 && v.tasks == [] && q !in run[i].combine && v.armed == 0 && v.began == v.pushed
    ensures forall t: nat | t < |run[i].threads| ::
              !Holds(run[i].threads[t].stage, q) && !Borrows(run[i].threads[t].call, q)
  {
    var s := run[i];
    Reachable(run, i);
    assert SlotSound(s, q);
    NothingWithoutReference(s, q);
    forall t: nat | t < |s.threads| ensures !Holds(s.threads[t].stage, q) && !Borrows(s.threads[t].call, q) {
      ShareIsCovered(s, t, q);
    }
  }

  /** A thread that works on `q` has a reference to it. */
  lemma NobodyWorksOnTheDead(s: State, t: nat, q: nat)
    requires Inv(s) && t < |s.threads| && q < |s.slots| && s.slots[q].refs == 0
    ensures Share(s.threads[t], q) == Counts(0, 0, 0, 0) && s.slots[q].handles == 0 && s.slots[q].upgrades == 0
  {
    assert SlotSound(s, q);
    NothingWithoutReference(s, q);
    ShareIsCovered(s, t, q);
  }

  lemma DeadToCalls(s: State, s': State, t: nat, q: nat)
    requires t < |s.threads| && q < |s.slots| && CallStep(s, s', t, q)
    requires Share(s.threads[t], q) == Counts(0, 0, 0, 0) && s.slots[q].handles == 0 && s.slots[q].upgrades == 0
    ensures |s'.slots| == |s.slots| && s'.slots[q].refs == s.slots[q].refs
  {
  }

  lemma RunnerHolds(s: State, s': State, t: nat, q: nat)
    requires t < |s.threads| && q < |s.slots| && RunStep(s, s', t, q)
    ensures Holds(s.threads[t].stage, q)
  {
  }

  /** A queue without references gets none: only a new tenant starts again, and never before the slot was given back. */
  lemma NoResurrection(run: seq<State>, i: nat, q: nat)
    requires Execution(run) && i + 1 < |run| && q < |run[i].slots| && run[i].slots[q].refs == 0
    ensures q < |run[i + 1].slots|
    ensures var v, w := run[i].slots[q], run[i + 1].slots[q];
            w.refs == 0 || (v.life == Free && w.tenant == v.tenant + 1)
  {
    var s, s' := run[i], run[i + 1];
    Reachable(run, i);
    assert Linked(run, i + 1);
    DeadStaysDead(s, s', q);
  }

  lemma DeadStaysDead(s: State, s': State, q: nat)
    requires Inv(s) && Next(s, s') && q < |s.slots| && s.slots[q].refs == 0
    ensures q < |s'.slots|
    ensures var v, w := s.slots[q], s'.slots[q]; w.refs == 0 || (v.life == Free && w.tenant == v.tenant + 1)
  {
    hide Inv, CallStep, RunStep, ScriptStep;
    if p: nat :| p < |s.slots| && ReferenceStep(s, s', p) {
      DeadToReferences(s, s', p, q);
    } else if t: nat, p: nat :| t < |s.threads| && p < |s.slots| && CallStep(s, s', t, p) {
      NobodyWorksOnTheDead(s, t, q);
      if p == q {
        DeadToCalls(s, s', t, q);
      } else {
        CallsElsewhere(s, s', t, p, q);
      }
    } else if t: nat, p: nat :| t < |s.threads| && p < |s.slots| && RunStep(s, s', t, p) {
      NobodyWorksOnTheDead(s, t, q);
      RunnerHolds(s, s', t, p);
      if p != q {
        RunsElsewhere(s, s', t, p, q);
      }
    } else if t: nat, p: nat :| t < |s.threads| && p < |s.slots| && ScriptStep(s, s', t, p) {
      ScriptExtends(s, s', t, p);
    }
  }

  lemma DeadToReferences(s: State, s': State, p: nat, q: nat)
    requires Inv(s) && p < |s.slots| && q < |s.slots| && ReferenceStep(s, s', p) && s.slots[q].refs == 0
    ensures q < |s'.slots| && (s'.slots[q].refs == 0 || (s.slots[q].life == Free
            && s'.slots[q].tenant == s.slots[q].tenant + 1))
  {
    assert SlotSound(s, q);
  }

  lemma CallsElsewhere(s: State, s': State, t: nat, p: nat, q: nat)
    requires t < |s.threads| && p < |s.slots| && q < |s.slots| && p != q && CallStep(s, s', t, p)
    ensures |s'.slots| == |s.slots| && s'.slots[q] == s.slots[q]
  {
  }

  lemma RunsElsewhere(s: State, s': State, t: nat, p: nat, q: nat)
    requires t < |s.threads| && p < |s.slots| && q < |s.slots| && p != q && RunStep(s, s', t, p)
    ensures |s'.slots| == |s.slots| && s'.slots[q] == s.slots[q]
  {
  }

  /** Outside a body that has changed timers and not synced yet, the self reference is there exactly for them. */
  lemma SelfReferenceIsForTimers(run: seq<State>, i: nat, q: nat)
    requires Execution(run) && i < |run| && q < |run[i].slots|
    requires forall t: nat | t < |run[i].threads| && run[i].threads[t].stage.Running? ::
               run[i].threads[t].stage.q != q || !run[i].threads[t].stage.dirty
    ensures run[i].slots[q].selfRef <==> run[i].slots[q].armed > 0
  {
    Reachable(run, i);
    assert SlotSound(run[i], q);
    SumZero(run[i].threads, DirtyOf(q));
  }

  // ---------------------------------------------------------------------------
  // The combine
  // ---------------------------------------------------------------------------

  /** A worker that was looking takes the queue linked first. */
  ghost predicate TakesFirst(s: State, s': State) {
    && s.combine != [] && s'.combine == s.combine[1..]
    && exists t: nat | t < |s.threads| == |s'.threads| ::
         s.threads[t].stage == Scanning && s'.threads[t].stage == Starting(s.combine[0])
  }

  /** Queues are linked last and taken first. */
  ghost predicate CombineMoves(s: State, s': State) {
    || s'.combine == s.combine
    || (exists q :: s'.combine == s.combine + [q])
    || TakesFirst(s, s')
  }

  lemma CallMoves(s: State, s': State, t: nat, q: nat)
    requires t < |s.threads| && q < |s.slots| && CallStep(s, s', t, q)
    ensures s'.combine == s.combine || s'.combine == s.combine + [q]
  {
  }

  lemma RunMoves(s: State, s': State, t: nat, q: nat)
    requires t < |s.threads| && q < |s.slots| && RunStep(s, s', t, q)
    ensures s'.combine == s.combine || s'.combine == s.combine + [q]
  {
  }

  lemma ScriptMoves(s: State, s': State, t: nat, q: nat)
    requires t < |s.threads| && q < |s.slots| && ScriptStep(s, s', t, q)
    ensures s'.combine == s.combine
  {
  }

  lemma IdleMoves(s: State, s': State, t: nat)
    requires t < |s.threads| && IdleStep(s, s', t)
    ensures s'.combine == s.combine || TakesFirst(s, s')
  {
    if TakeStep(s, s', t) {
      assert s'.threads[t].stage == Starting(s.combine[0]);
    }
  }

  lemma StepMoves(s: State, s': State)
    requires Next(s, s')
    ensures CombineMoves(s, s')
  {
    hide CallStep, RunStep, ScriptStep, IdleStep, TakesFirst;
    if t: nat, p: nat :| t < |s.threads| && p < |s.slots| && CallStep(s, s', t, p) {
      CallMoves(s, s', t, p);
    } else if t: nat, p: nat :| t < |s.threads| && p < |s.slots| && RunStep(s, s', t, p) {
      RunMoves(s, s', t, p);
    } else if t: nat, p: nat :| t < |s.threads| && p < |s.slots| && ScriptStep(s, s', t, p) {
      ScriptMoves(s, s', t, p);
    } else if t: nat :| t < |s.threads| && IdleStep(s, s', t) {
      IdleMoves(s, s', t);
    }
  }

  /** How often a queue was taken off the combine between two moments. */
  function Takes(run: seq<State>, i: nat, j: nat): nat
    requires i <= j < |run|
  {
    if i == j then 0 else Takes(run, i, j - 1) + if |run[j].combine| < |run[j - 1].combine| then 1 else 0
  }

  /**
   No queue is passed over: after `n` queues were taken, those linked behind
   them are linked first and in the same order, so the place of a queue falls
   by one with every queue taken and it leaves the combine from the first.
   */
  lemma {:induction false} LinksKeepTheirOrder(run: seq<State>, i: nat, j: nat)
    requires Execution(run) && i <= j < |run| && Takes(run, i, j) <= |run[i].combine|
    ensures run[i].combine[Takes(run, i, j)..] <= run[j].combine
  {
    hide Next, TakesFirst;
    if i < j {
      LinksKeepTheirOrder(run, i, j - 1);
      assert Linked(run, j);
      StepMoves(run[j - 1], run[j]);
      MovedOrder(run[i].combine, Takes(run, i, j - 1), run[j - 1], run[j]);
    }
  }

  lemma MovedOrder(first: seq<nat>, n: nat, s: State, s': State)
    requires n <= |first| && first[n..] <= s.combine && CombineMoves(s, s')
    requires |s'.combine| < |s.combine| ==> n < |first|
    ensures if |s'.combine| < |s.combine| then first[n + 1..] <= s'.combine else first[n..] <= s'.combine
  {
    if |s'.combine| < |s.combine| {
      assert first[n + 1..] == first[n..][1..];
    }
  }

  /** The queue at place `k` is the one the take after `k` others finds, and a worker starts on it. */
  lemma TakenInTurn(run: seq<State>, i: nat, j: nat, k: nat)
    requires Execution(run) && i < j < |run| && k < |run[i].combine|
    requires Takes(run, i, j - 1) == k && |run[j].combine| < |run[j - 1].combine|
    ensures exists t: nat :: t < |run[j].threads| && run[j].threads[t].stage == Starting(run[i].combine[k])
  {
    LinksKeepTheirOrder(run, i, j - 1);
    assert Linked(run, j);
    hide Next;
    StepMoves(run[j - 1], run[j]);
    assert run[i].combine[k..][0] == run[j - 1].combine[0];
  }

  // ---------------------------------------------------------------------------
  // Wakeups
  // ---------------------------------------------------------------------------

  /**
   While a queue is linked, the eventfd is readable, or a thread outside the
   loop is about to write it, or some worker has not seen the combine empty
   since it woke.
   */
  lemma NoLostWakeup(run: seq<State>, i: nat)
    requires Execution(run) && i < |run| && run[i].combine != []
    ensures var s := run[i];
            || s.eventfd > 0
            || (exists t :: 0 <= t < |s.threads| && s.threads[t].call.Signalling?)
            || (exists t :: 0 <= t < |s.threads| && s.threads[t].worker && s.threads[t].stage != Asleep)
  {
    var s := run[i];
    Reachable(run, i);
    if Sum(s.threads, SignalOf()) > 0 {
      var t := SumWitness(s.threads, SignalOf());
    } else if s.eventfd == 0 {
      var t := SumWitness(s.threads, AwakeOf());
    }
  }

  /** Thread `t` is about to write the eventfd since this step. */
  predicate StartsSignal(s: State, s': State, t: nat) {
    t < |s.threads| && t < |s'.threads| && !s.threads[t].call.Signalling? && s'.threads[t].call.Signalling?
  }

  predicate EndsSignal(s: State, s': State, t: nat) {
    && t < |s.threads| && s.threads[t].call.Signalling?
    && s'.threads == s.threads[t := s.threads[t].(call := NoCall)]
  }

  /** What a step does to the eventfd and to those about to write it. */
  ghost predicate SignalMoves(s: State, s': State) {
    && |s.threads| <= |s'.threads|
    && (forall t: nat | StartsSignal(s, s', t) ::
          s.combine == [] && !s.threads[t].worker && s'.combine == [s'.threads[t].call.q])
    && (|| s'.eventfd == s.eventfd
        || (s'.eventfd + 1 == s.eventfd && s'.threads == s.threads)
        || (s'.eventfd == s.eventfd + 1 && exists t: nat :: EndsSignal(s, s', t)))
  }

  lemma CallSignals(s: State, s': State, t: nat, q: nat)
    requires t < |s.threads| && q < |s.slots| && CallStep(s, s', t, q)
    ensures SignalMoves(s, s')
  {
    if SignalStep(s, s', t, q) {
      assert EndsSignal(s, s', t);
    }
  }

  lemma RunSignalsNot(s: State, s': State, t: nat, q: nat)
    requires t < |s.threads| && q < |s.slots| && RunStep(s, s', t, q)
    ensures SignalMoves(s, s')
  {
  }

  lemma OthersSignalNot(s: State, s': State)
    requires (exists q: nat :: q < |s.slots| && ReferenceStep(s, s', q))
             || (exists t: nat :: t < |s.threads| && IdleStep(s, s', t))
             || (exists t: nat, q: nat :: t < |s.threads| && q < |s.slots| && ScriptStep(s, s', t, q))
             || LeaveStep(s, s') || GrowStep(s, s') || SpawnStep(s, s')
    ensures SignalMoves(s, s')
  {
  }

  /**
   The eventfd is written once for a link that found the combine empty, by the
   thread outside the loop that made it; workers never write it, and neither
   does a push into a combine that is not empty. A reader takes one
   notification.
   */
  lemma OnlyFirstLinkSignals(s: State, s': State)
    requires Next(s, s')
    ensures SignalMoves(s, s')
  {
    hide ReferenceStep, IdleStep, CallStep, RunStep, ScriptStep, SignalMoves;
    if t: nat, p: nat :| t < |s.threads| && p < |s.slots| && CallStep(s, s', t, p) {
      CallSignals(s, s', t, p);
    } else if t: nat, p: nat :| t < |s.threads| && p < |s.slots| && RunStep(s, s', t, p) {
      RunSignalsNot(s, s', t, p);
    } else {
      OthersSignalNot(s, s');
    }
  }
}
