/** What every step of the queue protocol keeps, and that every step does. */
module QueueInvariant {
  import opened Tally
  import opened Tasks
  import opened QueueProtocol

  // ---------------------------------------------------------------------------
  // Weights
  // ---------------------------------------------------------------------------

  predicate StageHasToken(stage: Stage, q: nat) {
    Holds(stage, q) && (stage.Dropping? ==> stage.more)
  }

  predicate CallHasToken(call: Call, q: nat) {
    (call.Acquiring? || call.Linking?) && call.q == q
  }

  /** The right to run `q`. */
  function TokenOf(q: nat): Thread -> nat {
    (x: Thread) => One(StageHasToken(x.stage, q)) + One(CallHasToken(x.call, q))
  }

  predicate Borrows(call: Call, q: nat) {
    !call.NoCall? && call.q == q && call.via != Self
  }

  /** References to `q` in the hands of a thread. */
  function RefOf(q: nat): Thread -> nat {
    (x: Thread) => One(Holds(x.stage, q)) + One(Borrows(x.call, q)) + One(x.call.Linking? && x.call.q == q)
  }

  function BodyOf(q: nat): Thread -> nat {
    (x: Thread) => One(x.stage.Running? && x.stage.q == q)
  }

  function DirtyOf(q: nat): Thread -> nat {
    (x: Thread) => One(x.stage.Running? && x.stage.q == q && x.stage.dirty)
  }

  /** In the middle of ntt_loop_worker_svc, so it will look into the combine again. */
  function AwakeOf(): Thread -> nat {
    (x: Thread) => One(x.worker && Awake(x))
  }

  function SignalOf(): Thread -> nat {
    (x: Thread) => One(x.call.Signalling?)
  }

  /** What the threads together have to do with one slot. */
  datatype Counts = Counts(tokens: nat, refs: nat, bodies: nat, dirty: nat)

  ghost function CountsOf(threads: seq<Thread>, q: nat): Counts {
    Counts(Sum(threads, TokenOf(q)), Sum(threads, RefOf(q)), Sum(threads, BodyOf(q)), Sum(threads, DirtyOf(q)))
  }

  /** How often `q` is linked into the combine. */
  ghost function Links(s: State, q: nat): nat { multiset(s.combine)[q] }

  /** The same of one thread. */
  function Share(x: Thread, q: nat): Counts {
    Counts(TokenOf(q)(x), RefOf(q)(x), BodyOf(q)(x), DirtyOf(q)(x))
  }

  // ---------------------------------------------------------------------------
  // The invariant
  // ---------------------------------------------------------------------------

  /** The bodies started are the first tasks pushed: those unlinked, and the one that runs. */
  predicate OrderSound(tasks: seq<Task>, pushed: seq<Task>, began: seq<Task>, bodies: nat) {
    var popped := |pushed| - |tasks|;
    && 0 <= popped && tasks == pushed[popped..]
    && popped + bodies <= |pushed| && began == pushed[..popped + bodies]
  }

  ghost predicate Fits(v: Slot, c: Counts, links: nat) {
    && c.tokens + links == One(v.tasks != [])
    && v.refs == v.handles + v.upgrades + One(v.selfRef) + c.refs + links
    && (v.life == Alive <==> v.refs > 0)
    && (c.dirty == 0 ==> (v.selfRef <==> v.armed > 0))
    && OrderSound(v.tasks, v.pushed, v.began, c.bodies)
  }

  ghost predicate SlotSound(s: State, q: nat)
    requires q < |s.slots|
  {
    Fits(s.slots[q], CountsOf(s.threads, q), Links(s, q))
  }

  predicate ThreadSound(x: Thread, n: nat) {
    && (x.worker <==> x.stage != Idle)
    && (x.stage == Asleep ==> x.call == NoCall)
    && (x.stage.Starting? || x.stage.Running? || x.stage.Dropping? || x.stage.Relinking? ==> x.stage.q < n)
    && (!x.call.NoCall? ==> x.call.q < n && (x.call.via == Self ==> Holds(x.stage, x.call.q)))
    && (x.call.Signalling? ==> !x.worker)
  }

  ghost predicate ThreadsSound(s: State) {
    && (forall t | 0 <= t < |s.threads| :: ThreadSound(s.threads[t], |s.slots|))
    && (forall i | 0 <= i < |s.combine| :: s.combine[i] < |s.slots|)
  }

  ghost predicate SlotsSound(s: State) {
    forall q | 0 <= q < |s.slots| :: SlotSound(s, q)
  }

  /** A linked queue has been announced, or some worker has yet to look. */
  ghost predicate WakeupSound(s: State) {
    s.combine != [] ==> s.eventfd > 0 || Sum(s.threads, SignalOf()) > 0 || Sum(s.threads, AwakeOf()) > 0
  }

  ghost predicate Inv(s: State) {
    SlotsSound(s) && ThreadsSound(s) && WakeupSound(s)
  }

  // ---------------------------------------------------------------------------
  // One thread and one slot change
  // ---------------------------------------------------------------------------

  predicate Covers(c: Counts, part: Counts) {
    c.tokens >= part.tokens && c.refs >= part.refs && c.bodies >= part.bodies && c.dirty >= part.dirty
  }

  function Shifted(c: Counts, minus: Counts, plus: Counts): Counts
    requires Covers(c, minus)
  {
    Counts(c.tokens - minus.tokens + plus.tokens, c.refs - minus.refs + plus.refs,
           c.bodies - minus.bodies + plus.bodies, c.dirty - minus.dirty + plus.dirty)
  }

  lemma ShareIsCovered(s: State, t: nat, q: nat)
    requires t < |s.threads|
    ensures Covers(CountsOf(s.threads, q), Share(s.threads[t], q))
  {
    SumMember(s.threads, t, TokenOf(q));
    SumMember(s.threads, t, RefOf(q));
    SumMember(s.threads, t, BodyOf(q));
    SumMember(s.threads, t, DirtyOf(q));
  }

  lemma Recount(s: State, s': State, t: nat, x: Thread, q: nat)
    requires t < |s.threads| && ThreadBecomes(s, s', t, x)
    ensures Covers(CountsOf(s.threads, q), Share(s.threads[t], q))
    ensures CountsOf(s'.threads, q) == Shifted(CountsOf(s.threads, q), Share(s.threads[t], q), Share(x, q))
  {
    ShareIsCovered(s, t, q);
    SumUpdate(s.threads, t, x, TokenOf(q));
    SumUpdate(s.threads, t, x, RefOf(q));
    SumUpdate(s.threads, t, x, BodyOf(q));
    SumUpdate(s.threads, t, x, DirtyOf(q));
  }

  predicate StageOf(stage: Stage, q: nat) {
    stage.Starting? || stage.Running? || stage.Dropping? || stage.Relinking? ==> stage.q == q
  }

  /** What tells the threads `x` and `y` apart is about `q`. */
  predicate DifferAt(x: Thread, y: Thread, q: nat) {
    && (x.stage == y.stage || (StageOf(x.stage, q) && StageOf(y.stage, q)))
    && (x.call == y.call || ((x.call.NoCall? || x.call.q == q) && (y.call.NoCall? || y.call.q == q)))
  }

  /** Thread `t` becomes `x`, slot `q` becomes `v`, and only links of `q` come or go. */
  ghost predicate Moves(s: State, s': State, t: nat, x: Thread, q: nat, v: Slot) {
    && t < |s.threads| && q < |s.slots|
    && ThreadBecomes(s, s', t, x) && SlotBecomes(s, s', q, v)
    && DifferAt(s.threads[t], x, q)
    && (forall i | 0 <= i < |s'.combine| :: s'.combine[i] < |s.slots|)
    && (forall p | p != q :: Links(s', p) == Links(s, p))
  }

  lemma OtherKept(s: State, s': State, t: nat, x: Thread, q: nat, v: Slot, p: nat)
    requires Moves(s, s', t, x, q, v) && p != q && p < |s.slots| && SlotSound(s, p)
    ensures SlotSound(s', p)
  {
    hide Fits;
    Recount(s, s', t, x, p);
    assert Share(s.threads[t], p) == Share(x, p);
  }

  lemma MoveKeeps(s: State, s': State, t: nat, x: Thread, q: nat, v: Slot)
    requires Inv(s) && Moves(s, s', t, x, q, v) && ThreadSound(x, |s.slots|) && WakeupSound(s')
    requires Covers(CountsOf(s.threads, q), Share(s.threads[t], q))
    requires Fits(v, Shifted(CountsOf(s.threads, q), Share(s.threads[t], q), Share(x, q)), Links(s', q))
    ensures Inv(s')
  {
    hide Fits;
    Recount(s, s', t, x, q);
    forall p | 0 <= p < |s'.slots| ensures SlotSound(s', p) {
      if p != q {
        assert SlotSound(s, p);
        OtherKept(s, s', t, x, q, v, p);
      }
    }
  }

  /** No worker falls asleep and no signal is sent. */
  lemma WakeupKept(s: State, s': State, t: nat, x: Thread)
    requires WakeupSound(s) && t < |s.threads| && ThreadBecomes(s, s', t, x)
    requires (s'.combine != [] ==> s.combine != []) && s'.eventfd == s.eventfd
    requires AwakeOf()(x) >= AwakeOf()(s.threads[t]) && SignalOf()(x) >= SignalOf()(s.threads[t])
    ensures WakeupSound(s')
  {
    SumUpdate(s.threads, t, x, AwakeOf());
    SumUpdate(s.threads, t, x, SignalOf());
  }

  /** A worker that is awake vouches for the combine. */
  lemma WakeupVouched(s: State, t: nat)
    requires t < |s.threads| && s.threads[t].worker && Awake(s.threads[t])
    ensures WakeupSound(s)
  {
    SumMember(s.threads, t, AwakeOf());
  }

  /** So does a thread about to write the eventfd, and so does the eventfd once written. */
  lemma WakeupSignalled(s: State, t: nat)
    requires t < |s.threads| && s.threads[t].call.Signalling?
    ensures WakeupSound(s)
  {
    SumMember(s.threads, t, SignalOf());
  }

  lemma WakeupWritten(s: State)
    requires s.eventfd > 0
    ensures WakeupSound(s)
  {
  }

  /** What the invariant says of thread `t` and slot `q`. */
  lemma Concerned(s: State, t: nat, q: nat)
    requires Inv(s) && t < |s.threads| && q < |s.slots|
    ensures ThreadSound(s.threads[t], |s.slots|) && SlotSound(s, q)
    ensures Covers(CountsOf(s.threads, q), Share(s.threads[t], q))
    ensures forall i | 0 <= i < |s.combine| :: s.combine[i] < |s.slots|
  {
    ShareIsCovered(s, t, q);
  }

  // ---------------------------------------------------------------------------
  // References
  // ---------------------------------------------------------------------------

  /** Whoever has a right to `q` has a reference to it. */
  lemma NothingWithoutReference(s: State, q: nat)
    requires ThreadsSound(s) && CountsOf(s.threads, q).refs == 0
    ensures var c := CountsOf(s.threads, q); c.tokens == 0 && c.bodies == 0 && c.dirty == 0
  {
    forall t | 0 <= t < |s.threads|
      ensures TokenOf(q)(s.threads[t]) == 0 && BodyOf(q)(s.threads[t]) == 0 && DirtyOf(q)(s.threads[t]) == 0
    {
      SumMember(s.threads, t, RefOf(q));
      assert ThreadSound(s.threads[t], |s.slots|);
    }
    SumZero(s.threads, TokenOf(q));
    SumZero(s.threads, BodyOf(q));
    SumZero(s.threads, DirtyOf(q));
  }

  /** Only one slot changes. */
  lemma SlotReplaced(s: State, s': State, q: nat, v: Slot)
    requires Inv(s) && q < |s.slots| && SlotBecomes(s, s', q, v) && s'.threads == s.threads
    requires s'.combine == s.combine && s'.eventfd == s.eventfd
    requires Fits(v, CountsOf(s.threads, q), Links(s, q))
    ensures Inv(s')
  {
    forall p | 0 <= p < |s'.slots| ensures SlotSound(s', p) {
      assert SlotSound(s, p);
      assert CountsOf(s'.threads, p) == CountsOf(s.threads, p);
    }
  }

  /** A slot without references is as a new tenant has to find it. */
  lemma DeadSlotIsClean(s: State, q: nat)
    requires Inv(s) && q < |s.slots| && s.slots[q].life == Free
    ensures CountsOf(s.threads, q) == Counts(0, 0, 0, 0) && Links(s, q) == 0
  {
    assert SlotSound(s, q);
    NothingWithoutReference(s, q);
  }

  lemma CreateKeeps(s: State, s': State, q: nat)
    requires Inv(s) && q < |s.slots| && CreateStep(s, s', q)
    ensures Inv(s')
  {
    hide SlotsSound, ThreadsSound, WakeupSound, CountsOf;
    DeadSlotIsClean(s, q);
    SlotReplaced(s, s', q, s'.slots[q]);
  }

  lemma ReferenceKeeps(s: State, s': State, q: nat)
    requires Inv(s) && q < |s.slots| && ReferenceStep(s, s', q)
    ensures Inv(s')
  {
    hide OrderSound, CountsOf;
    if CreateStep(s, s', q) {
      CreateKeeps(s, s', q);
    } else {
      assert SlotSound(s, q);
      SlotReplaced(s, s', q, s'.slots[q]);
    }
  }

  // ---------------------------------------------------------------------------
  // Calls
  // ---------------------------------------------------------------------------

  lemma EnterKeeps(s: State, s': State, t: nat, q: nat, via: Via, task: Task)
    requires Inv(s) && t < |s.threads| && q < |s.slots| && EnterStep(s, s', t, q, via, task)
    ensures Inv(s')
  {
    hide CountsOf, OrderSound, SlotsSound, ThreadsSound, WakeupSound;
    Concerned(s, t, q);
    var x, v := s'.threads[t], s'.slots[q];
    WakeupKept(s, s', t, x);
    MoveKeeps(s, s', t, x, q, v);
  }

  lemma PushOrder(tasks: seq<Task>, pushed: seq<Task>, began: seq<Task>, bodies: nat, task: Task)
    requires OrderSound(tasks, pushed, began, bodies)
    ensures OrderSound(tasks + [task], pushed + [task], began, bodies)
  {
  }

  lemma PushKeeps(s: State, s': State, t: nat, q: nat)
    requires Inv(s) && t < |s.threads| && q < |s.slots| && PushStep(s, s', t, q)
    ensures Inv(s')
  {
    hide CountsOf, OrderSound, SlotsSound, ThreadsSound, WakeupSound;
    Concerned(s, t, q);
    var x, v := s'.threads[t], s'.slots[q];
    WakeupKept(s, s', t, x);
    PushOrder(s.slots[q].tasks, s.slots[q].pushed, s.slots[q].began, CountsOf(s.threads, q).bodies,
        s.threads[t].call.task);
    MoveKeeps(s, s', t, x, q, v);
  }

  lemma AcquireKeeps(s: State, s': State, t: nat, q: nat)
    requires Inv(s) && t < |s.threads| && q < |s.slots| && AcquireStep(s, s', t, q)
    ensures Inv(s')
  {
    hide CountsOf, OrderSound, SlotsSound, ThreadsSound, WakeupSound;
    Concerned(s, t, q);
    var x, v := s'.threads[t], s'.slots[q];
    WakeupKept(s, s', t, x);
    MoveKeeps(s, s', t, x, q, v);
  }

  lemma LinkKeeps(s: State, s': State, t: nat, q: nat)
    requires Inv(s) && t < |s.threads| && q < |s.slots| && LinkStep(s, s', t, q)
    ensures Inv(s')
  {
    hide CountsOf, OrderSound, SlotsSound, ThreadsSound, WakeupSound;
    Concerned(s, t, q);
    var x, v := s'.threads[t], s'.slots[q];
    if x.worker {
      WakeupVouched(s', t);
    } else if s.combine == [] {
      WakeupSignalled(s', t);
    } else {
      WakeupKept(s, s', t, x);
    }
    MoveKeeps(s, s', t, x, q, v);
  }

  lemma SignalKeeps(s: State, s': State, t: nat, q: nat)
    requires Inv(s) && t < |s.threads| && q < |s.slots| && SignalStep(s, s', t, q)
    ensures Inv(s')
  {
    hide CountsOf, OrderSound, SlotsSound, ThreadsSound, WakeupSound;
    Concerned(s, t, q);
    var x, v := s'.threads[t], s'.slots[q];
    WakeupWritten(s');
    MoveKeeps(s, s', t, x, q, v);
  }

  lemma CallKeeps(s: State, s': State, t: nat, q: nat)
    requires Inv(s) && t < |s.threads| && q < |s.slots| && CallStep(s, s', t, q)
    ensures Inv(s')
  {
    if via, task :| EnterStep(s, s', t, q, via, task) { EnterKeeps(s, s', t, q, via, task); }
    else if PushStep(s, s', t, q) { PushKeeps(s, s', t, q); }
    else if AcquireStep(s, s', t, q) { AcquireKeeps(s, s', t, q); }
    else if LinkStep(s, s', t, q) { LinkKeeps(s, s', t, q); }
    else { SignalKeeps(s, s', t, q); }
  }

  // ---------------------------------------------------------------------------
  // Workers
  // ---------------------------------------------------------------------------

  /** A worker with no queue in hand changes its mind. */
  lemma RestKeeps(s: State, s': State, t: nat, x: Thread)
    requires Inv(s) && t < |s.threads| && ThreadBecomes(s, s', t, x) && s'.slots == s.slots && s'.combine == s.combine
    requires ThreadSound(x, |s.slots|) && WakeupSound(s')
    requires forall p :: Share(x, p) == Share(s.threads[t], p)
    ensures Inv(s')
  {
    hide Fits;
    forall p | 0 <= p < |s'.slots| ensures SlotSound(s', p) {
      assert SlotSound(s, p);
      Recount(s, s', t, x, p);
    }
  }

  lemma WakeKeeps(s: State, s': State, t: nat)
    requires Inv(s) && t < |s.threads| && WakeStep(s, s', t)
    ensures Inv(s')
  {
    var x := s'.threads[t];
    assert ThreadSound(s.threads[t], |s.slots|);
    WakeupVouched(s', t);
    RestKeeps(s, s', t, x);
  }

  lemma ReadKeeps(s: State, s': State, t: nat)
    requires Inv(s) && t < |s.threads| && ReadStep(s, s', t)
    ensures Inv(s')
  {
    assert ThreadSound(s.threads[t], |s.slots|);
    assert s'.threads == s.threads[t := s.threads[t]];
    WakeupVouched(s', t);
    RestKeeps(s, s', t, s.threads[t]);
  }

  lemma SleepKeeps(s: State, s': State, t: nat)
    requires Inv(s) && t < |s.threads| && SleepStep(s, s', t)
    ensures Inv(s')
  {
    assert ThreadSound(s.threads[t], |s.slots|);
    RestKeeps(s, s', t, s'.threads[t]);
  }

  lemma TakeKeeps(s: State, s': State, t: nat)
    requires Inv(s) && t < |s.threads| && TakeStep(s, s', t)
    ensures Inv(s')
  {
    hide CountsOf, OrderSound;
    var q := s.combine[0];
    assert s.combine == [q] + s'.combine;
    assert s'.slots == s.slots[q := s.slots[q]];
    assert ThreadSound(s.threads[t], |s.slots|);
    assert SlotSound(s, q);
    ShareIsCovered(s, t, q);
    WakeupVouched(s', t);
    MoveKeeps(s, s', t, s'.threads[t], q, s.slots[q]);
  }

  /** Whoever has the right to run a queue finds tasks in it, and no link. */
  lemma RunnerFindsTask(s: State, t: nat, q: nat)
    requires Inv(s) && t < |s.threads| && q < |s.slots| && StageHasToken(s.threads[t].stage, q)
    ensures s.slots[q].tasks != [] && Links(s, q) == 0 && s.slots[q].refs > 0
  {
    assert SlotSound(s, q);
    ShareIsCovered(s, t, q);
  }

  /** A worker with the queue in hand and no body started is the only one that could have. */
  lemma NoBodyElsewhere(s: State, t: nat, q: nat)
    requires Inv(s) && t < |s.threads| && q < |s.slots| && s.threads[t].stage == Starting(q)
    ensures CountsOf(s.threads, q).bodies == 0
  {
    assert SlotSound(s, q);
    if Sum(s.threads, BodyOf(q)) > 0 {
      var u := SumWitness(s.threads, BodyOf(q));
      if u < t {
        SumPair(s.threads, u, t, TokenOf(q));
      } else {
        SumPair(s.threads, t, u, TokenOf(q));
      }
    }
  }

  lemma BeginKeeps(s: State, s': State, t: nat, q: nat)
    requires Inv(s) && t < |s.threads| && q < |s.slots| && BeginStep(s, s', t, q)
    ensures Inv(s')
  {
    hide CountsOf, SlotsSound, ThreadsSound, WakeupSound;
    Concerned(s, t, q);
    var x, v := s'.threads[t], s'.slots[q];
    WakeupVouched(s', t);
    RunnerFindsTask(s, t, q);
    NoBodyElsewhere(s, t, q);
    MoveKeeps(s, s', t, x, q, v);
  }

  lemma KeepKeeps(s: State, s': State, t: nat, q: nat)
    requires Inv(s) && t < |s.threads| && q < |s.slots| && KeepStep(s, s', t, q)
    ensures Inv(s')
  {
    hide CountsOf, OrderSound, SlotsSound, ThreadsSound, WakeupSound;
    Concerned(s, t, q);
    assert s'.threads == s.threads[t := s.threads[t]];
    var x, v := s'.threads[t], s'.slots[q];
    WakeupVouched(s', t);
    MoveKeeps(s, s', t, x, q, v);
  }

  lemma TimersKeeps(s: State, s': State, t: nat, q: nat, armed: nat)
    requires Inv(s) && t < |s.threads| && q < |s.slots| && TimersStep(s, s', t, q, armed)
    ensures Inv(s')
  {
    hide CountsOf, OrderSound, SlotsSound, ThreadsSound, WakeupSound;
    Concerned(s, t, q);
    var x, v := s'.threads[t], s'.slots[q];
    WakeupVouched(s', t);
    MoveKeeps(s, s', t, x, q, v);
  }

  lemma SyncKeeps(s: State, s': State, t: nat, q: nat)
    requires Inv(s) && t < |s.threads| && q < |s.slots| && SyncStep(s, s', t, q)
    ensures Inv(s')
  {
    hide CountsOf, OrderSound, SlotsSound, ThreadsSound, WakeupSound;
    Concerned(s, t, q);
    var x, v := s'.threads[t], s'.slots[q];
    WakeupVouched(s', t);
    MoveKeeps(s, s', t, x, q, v);
  }

  lemma NextTaskKeeps(s: State, s': State, t: nat, q: nat)
    requires Inv(s) && t < |s.threads| && q < |s.slots| && NextTaskStep(s, s', t, q)
    ensures Inv(s')
  {
    hide CountsOf, SlotsSound, ThreadsSound, WakeupSound;
    Concerned(s, t, q);
    var x, v := s'.threads[t], s'.slots[q];
    WakeupVouched(s', t);
    RunnerFindsTask(s, t, q);
    MoveKeeps(s, s', t, x, q, v);
  }

  lemma GoOnKeeps(s: State, s': State, t: nat, q: nat, limit: bool)
    requires Inv(s) && t < |s.threads| && q < |s.slots| && GoOnStep(s, s', t, q, limit)
    ensures Inv(s')
  {
    hide CountsOf, OrderSound, SlotsSound, ThreadsSound, WakeupSound;
    Concerned(s, t, q);
    var x, v := s'.threads[t], s'.slots[q];
    assert s'.slots == s.slots[q := v];
    WakeupVouched(s', t);
    MoveKeeps(s, s', t, x, q, v);
  }

  lemma RelinkKeeps(s: State, s': State, t: nat, q: nat)
    requires Inv(s) && t < |s.threads| && q < |s.slots| && RelinkStep(s, s', t, q)
    ensures Inv(s')
  {
    hide CountsOf, OrderSound, SlotsSound, ThreadsSound, WakeupSound;
    Concerned(s, t, q);
    var x, v := s'.threads[t], s'.slots[q];
    assert s'.slots == s.slots[q := v];
    WakeupVouched(s', t);
    MoveKeeps(s, s', t, x, q, v);
  }

  lemma DoneKeeps(s: State, s': State, t: nat, q: nat)
    requires Inv(s) && t < |s.threads| && q < |s.slots| && DoneStep(s, s', t, q)
    ensures Inv(s')
  {
    hide CountsOf, OrderSound, SlotsSound, ThreadsSound, WakeupSound;
    Concerned(s, t, q);
    var x, v := s'.threads[t], s'.slots[q];
    WakeupVouched(s', t);
    MoveKeeps(s, s', t, x, q, v);
  }

  lemma ScriptKeeps(s: State, s': State, t: nat, q: nat)
    requires Inv(s) && t < |s.threads| && q < |s.slots| && ScriptStep(s, s', t, q)
    ensures Inv(s')
  {
    hide SlotsSound, EnterStep;
    var mid := Advanced(s, t);
    assert ThreadSound(s.threads[t], |s.slots|);
    WakeupVouched(mid, t);
    RestKeeps(s, mid, t, mid.threads[t]);
    var push := s.threads[t].stage.left[0];
    if MayPush(s, q, push.queue) {
      EnterKeeps(mid, s', t, push.queue, if push.queue == q then Self else Handle, push.task);
    }
  }

  lemma LeaveKeeps(s: State, s': State)
    requires Inv(s) && LeaveStep(s, s')
    ensures Inv(s')
  {
    hide Fits;
    forall p | 0 <= p < |s'.slots| ensures SlotSound(s', p) {
      assert SlotSound(s, p);
    }
  }

  lemma IdleKeeps(s: State, s': State, t: nat)
    requires Inv(s) && t < |s.threads| && IdleStep(s, s', t)
    ensures Inv(s')
  {
    if WakeStep(s, s', t) { WakeKeeps(s, s', t); }
    else if ReadStep(s, s', t) { ReadKeeps(s, s', t); }
    else if SleepStep(s, s', t) { SleepKeeps(s, s', t); }
    else { TakeKeeps(s, s', t); }
  }

  lemma RunKeeps(s: State, s': State, t: nat, q: nat)
    requires Inv(s) && t < |s.threads| && q < |s.slots| && RunStep(s, s', t, q)
    ensures Inv(s')
  {
    if BeginStep(s, s', t, q) { BeginKeeps(s, s', t, q); }
    else if KeepStep(s, s', t, q) { KeepKeeps(s, s', t, q); }
    else if SyncStep(s, s', t, q) { SyncKeeps(s, s', t, q); }
    else if armed :| TimersStep(s, s', t, q, armed) { TimersKeeps(s, s', t, q, armed); }
    else if NextTaskStep(s, s', t, q) { NextTaskKeeps(s, s', t, q); }
    else if DoneStep(s, s', t, q) { DoneKeeps(s, s', t, q); }
    else if RelinkStep(s, s', t, q) { RelinkKeeps(s, s', t, q); }
    else { var limit :| GoOnStep(s, s', t, q, limit); GoOnKeeps(s, s', t, q, limit); }
  }

  lemma GrowKeeps(s: State, s': State)
    requires Inv(s) && GrowStep(s, s')
    ensures Inv(s')
  {
    var n := |s.slots|;
    forall t | 0 <= t < |s.threads|
      ensures Share(s.threads[t], n) == Counts(0, 0, 0, 0) && ThreadSound(s.threads[t], |s'.slots|)
    {
      assert ThreadSound(s.threads[t], n);
    }
    SumZero(s.threads, TokenOf(n));
    SumZero(s.threads, RefOf(n));
    SumZero(s.threads, BodyOf(n));
    SumZero(s.threads, DirtyOf(n));
    forall p | 0 <= p < |s'.slots| ensures SlotSound(s', p) {
      if p < n {
        assert SlotSound(s, p);
      }
    }
  }

  lemma SpawnKeeps(s: State, s': State)
    requires Inv(s) && SpawnStep(s, s')
    ensures Inv(s')
  {
    hide Fits;
    var x := Thread(false, Idle, NoCall);
    forall p | 0 <= p < |s'.slots| ensures SlotSound(s', p) {
      assert SlotSound(s, p);
      SumAppend(s.threads, x, TokenOf(p));
      SumAppend(s.threads, x, RefOf(p));
      SumAppend(s.threads, x, BodyOf(p));
      SumAppend(s.threads, x, DirtyOf(p));
    }
    SumAppend(s.threads, x, AwakeOf());
    SumAppend(s.threads, x, SignalOf());
  }

  lemma NextKeeps(s: State, s': State)
    requires Inv(s) && Next(s, s')
    ensures Inv(s')
  {
    if q: nat :| q < |s.slots| && ReferenceStep(s, s', q) { ReferenceKeeps(s, s', q); }
    else if t: nat, q: nat :| t < |s.threads| && q < |s.slots| && CallStep(s, s', t, q) { CallKeeps(s, s', t, q); }
    else if t: nat :| t < |s.threads| && IdleStep(s, s', t) { IdleKeeps(s, s', t); }
    else if t: nat, q: nat :| t < |s.threads| && q < |s.slots| && RunStep(s, s', t, q) { RunKeeps(s, s', t, q); }
    else if t: nat, q: nat :| t < |s.threads| && q < |s.slots| && ScriptStep(s, s', t, q) { ScriptKeeps(s, s', t, q); }
    else if LeaveStep(s, s') { LeaveKeeps(s, s'); }
    else if GrowStep(s, s') { GrowKeeps(s, s'); }
    else { SpawnKeeps(s, s'); }
  }

  lemma {:induction false} Reachable(run: seq<State>, i: nat)
    requires Execution(run) && i < |run|
    ensures Inv(run[i])
  {
    if i > 0 {
      Reachable(run, i - 1);
      assert Linked(run, i);
      NextKeeps(run[i - 1], run[i]);
    }
  }
}
