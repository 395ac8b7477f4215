/**
 The workers of a loop (src/loop.c, src/worker.c): their rendezvous, and the
 stop task each of them is sent when the work is gone.

 A worker has two references, its own and that of the loop, and whichever goes
 last sends the stop task. Every atomic operation and every section under the
 mutex is one step. What the work is, and when it goes, is the business of
 LoopProtocol.
 */
module LoopStop {
  import opened Tally

  /** Where a worker thread is in ntt_worker_svc_with_mask. */
  datatype Stage =
    | Unstarted
    | Started      // refs is one
    | Acquired     // the slot of the loop is filled, refs is two
    | Waiting      // counted in, at the rendezvous
    | Entered      // through, its own reference still to go
    | Sending      // its own reference was the last one
    | Serving
    | Left

  datatype Worker = Worker(stage: Stage, refs: int, slot: bool, stops: nat)

  /** The thread whose ntt_loop_work_leave saw the last work go; `next` is the slot it looks at. */
  datatype Stopper = NoStopper | Snapshot | Releasing(next: nat) | Pushing(next: nat)

  /** `entered`: the workers counted in at the rendezvous; `zeros`: how often the count of work has come to zero. */
  datatype Crew = Crew(entered: nat, workers: seq<Worker>, stopper: Stopper, zeros: nat)

  // ---------------------------------------------------------------------------
  // Steps
  // ---------------------------------------------------------------------------

  /** Whoever takes the count of work to zero becomes the stopper. */
  predicate ZeroStep(c: Crew, c': Crew) {
    c'.entered == c.entered && c'.workers == c.workers && c'.stopper == Snapshot && c'.zeros == c.zeros + 1
  }

  predicate WorkerBecomes(c: Crew, c': Crew, t: nat, w: Worker) {
    && t < |c.workers|
    && c'.workers == c.workers[t := w] && c'.zeros == c.zeros
  }

  predicate StartStep(c: Crew, c': Crew, t: nat) {
    && t < |c.workers|
    && c.workers[t].stage == Unstarted
    && WorkerBecomes(c, c', t, Worker(Started, 1, false, 0)) && c'.entered == c.entered && c'.stopper == c.stopper
  }

  /** ntt_loop_worker_enter fills the slot. */
  predicate AcquireStep(c: Crew, c': Crew, t: nat) {
    && t < |c.workers|
    && var w := c.workers[t];
    && w.stage == Started
    && WorkerBecomes(c, c', t, w.(stage := Acquired, refs := w.refs + 1, slot := true))
    && c'.entered == c.entered && c'.stopper == c.stopper
  }

  predicate CountStep(c: Crew, c': Crew, t: nat) {
    && t < |c.workers|
    && c.workers[t].stage == Acquired
    && WorkerBecomes(c, c', t, c.workers[t].(stage := Waiting))
    && c'.entered == c.entered + 1 && c'.stopper == c.stopper
  }

  predicate PassStep(c: Crew, c': Crew, t: nat) {
    && t < |c.workers|
    && c.workers[t].stage == Waiting && c.entered >= |c.workers|
    && WorkerBecomes(c, c', t, c.workers[t].(stage := Entered))
    && c'.entered == c.entered && c'.stopper == c.stopper
  }

  /** The worker drops its own reference. */
  predicate DropStep(c: Crew, c': Crew, t: nat) {
    && t < |c.workers|
    && var w := c.workers[t];
    && w.stage == Entered
    && WorkerBecomes(c, c', t, w.(stage := if w.refs == 1 then Sending else Serving, refs := w.refs - 1))
    && c'.entered == c.entered && c'.stopper == c.stopper
  }

  predicate SendStep(c: Crew, c': Crew, t: nat) {
    && t < |c.workers|
    && var w := c.workers[t];
    && w.stage == Sending
    && WorkerBecomes(c, c', t, w.(stage := Serving, stops := w.stops + 1))
    && c'.entered == c.entered && c'.stopper == c.stopper
  }

  /** The worker has run its stop task and is gone, and its stack with it. */
  predicate GoneStep(c: Crew, c': Crew, t: nat) {
    && t < |c.workers|
    && c.workers[t].stage == Serving && c.workers[t].stops > 0
    && WorkerBecomes(c, c', t, c.workers[t].(stage := Left))
    && c'.entered == c.entered && c'.stopper == c.stopper
  }

  /** The stopper copies the slots out of the loop. */
  predicate SnapshotStep(c: Crew, c': Crew) {
    && c.stopper == Snapshot
    && c'.workers == c.workers && c'.entered == c.entered && c'.zeros == c.zeros && c'.stopper == Releasing(0)
  }

  /** ntt_worker_release of the next worker. */
  predicate ReleaseStep(c: Crew, c': Crew, t: nat) {
    && t < |c.workers|
    && var w := c.workers[t];
    && c.stopper == Releasing(t)
    && WorkerBecomes(c, c', t, w.(refs := w.refs - 1)) && c'.entered == c.entered
    && c'.stopper == if w.refs == 1 then Pushing(t) else Releasing(t + 1)
  }

  predicate PushStep(c: Crew, c': Crew, t: nat) {
    && t < |c.workers|
    && var w := c.workers[t];
    && c.stopper == Pushing(t)
    && WorkerBecomes(c, c', t, w.(stops := w.stops + 1)) && c'.entered == c.entered
    && c'.stopper == Releasing(t + 1)
  }

  predicate ArriveStep(c: Crew, c': Crew, t: nat) {
    && t < |c.workers|
    && (StartStep(c, c', t) || AcquireStep(c, c', t) || CountStep(c, c', t) || PassStep(c, c', t))
  }

  predicate DepartStep(c: Crew, c': Crew, t: nat) {
    && t < |c.workers|
    && (DropStep(c, c', t) || SendStep(c, c', t) || GoneStep(c, c', t))
  }

  predicate StopStep(c: Crew, c': Crew, t: nat) {
    && t < |c.workers|
    && (ReleaseStep(c, c', t) || PushStep(c, c', t))
  }

  ghost predicate CrewStep(c: Crew, c': Crew) {
    || SnapshotStep(c, c')
    || (exists t: nat :: t < |c.workers| && ArriveStep(c, c', t))
    || (exists t: nat :: t < |c.workers| && DepartStep(c, c', t))
    || (exists t: nat :: t < |c.workers| && StopStep(c, c', t))
  }

  predicate Init(c: Crew) {
    && c.entered == 0 && c.stopper == NoStopper && c.zeros == 0 && |c.workers| > 0
    && forall t | 0 <= t < |c.workers| :: c.workers[t] == Worker(Unstarted, 0, false, 0)
  }

  // ---------------------------------------------------------------------------
  // The invariant
  // ---------------------------------------------------------------------------

  /** The loop's reference to worker `t` has been released. */
  predicate LoopReleased(stopper: Stopper, t: nat) {
    (stopper.Releasing? && t < stopper.next) || (stopper.Pushing? && t <= stopper.next)
  }

  predicate OwnReleased(stage: Stage) { stage == Sending || stage == Serving || stage == Left }

  predicate Counted(stage: Stage) { stage == Waiting || stage == Entered || OwnReleased(stage) }

  function CountedOf(): Worker -> nat { (w: Worker) => One(Counted(w.stage)) }

  /** References and stop tasks of a worker, whichever release came first. */
  predicate WorkerSound(w: Worker, released: bool, pushing: bool) {
    && (w.slot <==> w.stage != Unstarted && w.stage != Started)
    && w.refs == One(w.stage != Unstarted && !OwnReleased(w.stage)) + One(w.slot && !released)
    && w.stops + One(w.stage == Sending) + One(pushing) == One(OwnReleased(w.stage) && released)
    && (w.stage == Left ==> w.stops == 1)
  }

  predicate WorkersSound(c: Crew) {
    forall t | 0 <= t < |c.workers| :: WorkerSound(c.workers[t], LoopReleased(c.stopper, t), c.stopper == Pushing(t))
  }

  predicate StopperSound(c: Crew) {
    && (c.stopper.Releasing? ==> c.stopper.next <= |c.workers|)
    && (c.stopper.Pushing? ==> c.stopper.next < |c.workers|)
    && c.zeros == One(c.stopper != NoStopper)
  }

  predicate Through(stage: Stage) { stage == Entered || OwnReleased(stage) }

  /** Nobody is through, and nobody is stopped, before everybody has come. */
  ghost predicate RendezvousSound(c: Crew) {
    && c.entered == Sum(c.workers, CountedOf())
    && (forall t | 0 <= t < |c.workers| && Through(c.workers[t].stage) :: c.entered == |c.workers|)
    && (c.stopper != NoStopper ==> c.entered == |c.workers|)
  }

  ghost predicate Sound(c: Crew) {
    |c.workers| > 0 && StopperSound(c) && WorkersSound(c) && RendezvousSound(c)
  }

  lemma {:induction false} AllCounted(workers: seq<Worker>, t: nat)
    requires t < |workers| && Sum(workers, CountedOf()) == |workers|
    ensures Counted(workers[t].stage)
  {
    var n := |workers| - 1;
    CountedBounded(workers[..n]);
    if t < n {
      AllCounted(workers[..n], t);
    }
  }

  lemma {:induction false} CountedBounded(workers: seq<Worker>)
    ensures Sum(workers, CountedOf()) <= |workers|
  {
    if workers != [] {
      CountedBounded(workers[..|workers| - 1]);
    }
  }

  /** The work may go once everybody has come, and once only. */
  lemma ZeroKeeps(c: Crew, c': Crew)
    requires Sound(c) && ZeroStep(c, c') && c.stopper == NoStopper && c.entered == |c.workers|
    ensures Sound(c')
  {
  }

  lemma ArriveKeeps(c: Crew, c': Crew, t: nat)
    requires Sound(c) && t < |c.workers| && ArriveStep(c, c', t)
    ensures Sound(c')
  {
    hide Sum;
    assert WorkerSound(c.workers[t], LoopReleased(c.stopper, t), c.stopper == Pushing(t));
    SumUpdate(c.workers, t, c'.workers[t], CountedOf());
    CountedBounded(c'.workers);
    if c.stopper != NoStopper {
      AllCounted(c.workers, t);
    }
  }

  lemma DepartKeeps(c: Crew, c': Crew, t: nat)
    requires Sound(c) && t < |c.workers| && DepartStep(c, c', t)
    ensures Sound(c')
  {
    hide Sum;
    assert WorkerSound(c.workers[t], LoopReleased(c.stopper, t), c.stopper == Pushing(t));
    SumUpdate(c.workers, t, c'.workers[t], CountedOf());
    CountedBounded(c'.workers);
    if c.stopper != NoStopper {
      AllCounted(c.workers, t);
    }
  }

  lemma StopKeeps(c: Crew, c': Crew, t: nat)
    requires Sound(c) && t < |c.workers| && StopStep(c, c', t)
    ensures Sound(c')
  {
    hide Sum;
    assert WorkerSound(c.workers[t], LoopReleased(c.stopper, t), c.stopper == Pushing(t));
    SumUpdate(c.workers, t, c'.workers[t], CountedOf());
    CountedBounded(c'.workers);
    if c.stopper != NoStopper {
      AllCounted(c.workers, t);
    }
  }

  lemma CrewKeeps(c: Crew, c': Crew)
    requires Sound(c) && CrewStep(c, c')
    ensures Sound(c') && |c'.workers| == |c.workers| && c'.entered >= c.entered
    ensures c'.stopper == NoStopper <==> c.stopper == NoStopper
  {
    if t: nat :| t < |c.workers| && ArriveStep(c, c', t) { ArriveKeeps(c, c', t); }
    else if t: nat :| t < |c.workers| && DepartStep(c, c', t) { DepartKeeps(c, c', t); }
    else if t: nat :| t < |c.workers| && StopStep(c, c', t) { StopKeeps(c, c', t); }
  }

  lemma InitSound(c: Crew)
    requires Init(c)
    ensures Sound(c)
  {
    SumZero(c.workers, CountedOf());
  }

  // ---------------------------------------------------------------------------
  // What follows
  // ---------------------------------------------------------------------------

  /** Once the work has gone, every slot of the loop is filled. */
  lemma SlotsFilled(c: Crew, t: nat)
    requires Sound(c) && c.stopper != NoStopper && t < |c.workers|
    ensures c.workers[t].slot && Counted(c.workers[t].stage)
  {
    AllCounted(c.workers, t);
    assert WorkerSound(c.workers[t], LoopReleased(c.stopper, t), c.stopper == Pushing(t));
  }

  // ---------------------------------------------------------------------------
  // The end
  // ---------------------------------------------------------------------------

  /** Steps a worker has still to take. */
  function Rank(stage: Stage): nat {
    match stage
    case Unstarted => 7
    case Started => 6
    case Acquired => 5
    case Waiting => 4
    case Entered => 3
    case Sending => 2
    case Serving => 1
    case Left => 0
  }

  function RankOf(): Worker -> nat { (w: Worker) => Rank(w.stage) }

  /** Steps the stopper has still to take. */
  function StopperWork(c: Crew): int {
    match c.stopper
    case NoStopper => 0
    case Snapshot => 2 * |c.workers| + 1
    case Releasing(next) => 2 * (|c.workers| - next)
    case Pushing(next) => 2 * (|c.workers| - next) - 1
  }

  function CrewWork(c: Crew): int { Sum(c.workers, RankOf()) + StopperWork(c) }

  lemma WorkerStepShrinks(c: Crew, c': Crew, t: nat)
    requires ArriveStep(c, c', t) || DepartStep(c, c', t)
    ensures CrewWork(c') < CrewWork(c)
  {
    hide Sum;
    SumUpdate(c.workers, t, c'.workers[t], RankOf());
  }

  lemma StopStepShrinks(c: Crew, c': Crew, t: nat)
    requires StopStep(c, c', t)
    ensures CrewWork(c') < CrewWork(c)
  {
    hide Sum;
    SumUpdate(c.workers, t, c'.workers[t], RankOf());
  }

  lemma CrewWorkIsNatural(c: Crew)
    requires StopperSound(c)
    ensures CrewWork(c) >= 0
  {
  }

  lemma CrewWorkShrinks(c: Crew, c': Crew)
    requires Sound(c) && CrewStep(c, c')
    ensures 0 <= CrewWork(c') < CrewWork(c)
  {
    CrewKeeps(c, c');
    CrewWorkIsNatural(c');
    hide Sum, ArriveStep, DepartStep, StopStep, WorkersSound, RendezvousSound;
    if t: nat :| t < |c.workers| && ArriveStep(c, c', t) { WorkerStepShrinks(c, c', t); }
    else if t: nat :| t < |c.workers| && DepartStep(c, c', t) { WorkerStepShrinks(c, c', t); }
    else if t: nat :| t < |c.workers| && StopStep(c, c', t) { StopStepShrinks(c, c', t); }
  }

  ghost predicate CanStep(c: Crew) { exists c' :: CrewStep(c, c') }

  lemma StopperCanStep(c: Crew)
    requires Sound(c) && c.stopper != NoStopper && c.stopper != Releasing(|c.workers|)
    ensures CanStep(c)
  {
    var c';
    if c.stopper == Snapshot {
      c' := c.(stopper := Releasing(0));
      assert SnapshotStep(c, c');
    } else {
      var t := c.stopper.next;
      var w := c.workers[t];
      c' := if c.stopper.Releasing? then
              c.(workers := c.workers[t := w.(refs := w.refs - 1)],
                 stopper := if w.refs == 1 then Pushing(t) else Releasing(t + 1))
            else
              c.(workers := c.workers[t := w.(stops := w.stops + 1)], stopper := Releasing(t + 1));
      assert StopStep(c, c', t);
    }
    assert CrewStep(c, c');
  }

  lemma WorkerCanStep(c: Crew, t: nat)
    requires Sound(c) && c.stopper == Releasing(|c.workers|) && t < |c.workers| && c.workers[t].stage != Left
    ensures CanStep(c)
  {
    SlotsFilled(c, t);
    assert WorkerSound(c.workers[t], LoopReleased(c.stopper, t), c.stopper == Pushing(t));
    var w := c.workers[t];
    var w' :=
      if w.stage == Waiting then w.(stage := Entered)
      else if w.stage == Entered then w.(stage := if w.refs == 1 then Sending else Serving, refs := w.refs - 1)
      else if w.stage == Sending then w.(stage := Serving, stops := w.stops + 1)
      else w.(stage := Left);
    var c' := c.(workers := c.workers[t := w']);
    assert ArriveStep(c, c', t) || DepartStep(c, c', t);
    assert CrewStep(c, c');
  }

  /** Once the work has gone, a crew that can do nothing more has left, and its stopper is through. */
  lemma StuckCrewHasLeft(c: Crew)
    requires Sound(c) && c.stopper != NoStopper && !CanStep(c)
    ensures c.stopper == Releasing(|c.workers|) && forall t | 0 <= t < |c.workers| :: c.workers[t].stage == Left
  {
    if c.stopper != Releasing(|c.workers|) {
      StopperCanStep(c);
    }
    forall t: nat | t < |c.workers| ensures c.workers[t].stage == Left {
      if c.workers[t].stage != Left {
        WorkerCanStep(c, t);
      }
    }
  }
}
