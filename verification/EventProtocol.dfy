/**
 The life of one slot of the event slab (src/event.c), over any number of
 tenancies and under any interleaving of dispatchers, cancellers, users of
 stale handles, posted side tasks and the tasks that report a cancellation.

 Every atomic operation of the source is one step of one agent: the
 compare-and-swap loops of acquire, claim and leave, the fetch operations that
 publish readiness, set CLOSED and drop a reference, a generation check, a
 push, the start of a callback, EPOLL_CTL_DEL, the two halves of giving the
 slot back. Generations are unbounded.
 */
module EventProtocol {

  datatype Side = Readable | Writable

  /** What the kernel reported. */
  datatype Mask = Mask(input: bool, output: bool, failure: bool)

  datatype Config = Config(
    readQueue: bool, writeQueue: bool,  // a queue was given for the side
    wantRead: bool, wantWrite: bool,    // the interest
    serial: bool, work: bool,           // the flags
    readAt: nat, writeAt: nat)          // the slots of these queues, where there is one
  {
    predicate HasQueue(side: Side) {
      if side == Readable then readQueue else writeQueue
    }

    predicate Wants(side: Side) {
      if side == Readable then wantRead else wantWrite
    }

    /** Error and hangup count as readiness of every side subscribed to. */
    predicate Concerns(mask: Mask, side: Side) {
      && Wants(side)
      && (mask.failure || if side == Readable then mask.input else mask.output)
    }

    /** The side a cancellation is reported on first. */
    function FirstReport(): Side {
      if writeQueue then Writable
      else if readQueue then Readable
      else if wantRead && !wantWrite then Readable
      else Writable
    }

    /** The reports a tenancy owes, in order. */
    function Reports(): seq<Side> {
      if writeQueue && readQueue then [Writable, Readable] else [FirstReport()]
    }
  }

  /** One side of the state word, and what has been observed of the side. */
  datatype SideState = SideState(
    ready: bool, busy: bool,
    owed: bool,   // the kernel has reported the side and no handler call has started since
    late: nat)    // handler calls started after CLOSED was set

  const QUIET := SideState(false, false, false, 0)

  datatype Agent =
    | Done
    // ntt_event_dispatch
    | DispatchAcquire(gen: nat, mask: Mask)
    | DispatchCheck(gen: nat, mask: Mask)
    | DirectNext(gen: nat, read: bool, write: bool)
    | DirectCall(gen: nat, side: Side, write: bool)
    | Publish(gen: nat, read: bool, write: bool)
    | Claim(gen: nat, side: Side, read: bool)       // `read`: the readable side is claimed next
    | PostReference(gen: nat, side: Side, read: bool)
    | PostPush(gen: nat, side: Side, read: bool)
    | ServeNext(gen: nat, side: Side, read: bool)
    | ServeCall(gen: nat, side: Side, read: bool)
    | Leaving(gen: nat)
    // ntt_event_side_task_svc
    | TaskNext(gen: nat, side: Side)
    | TaskCall(gen: nat, side: Side)
    // ntt_event_cancel
    | CancelAcquire(gen: nat)
    | CancelCheck(gen: nat)
    | CancelClose(gen: nat)
    | CancelDelete(gen: nat)
    | CancelDrop(gen: nat)
    // ntt_event_cancelled_task_svc, ntt_event_teardown and ntt_event_finish
    | ReportNext(side: Side)
    | ReportCall(side: Side)
    | GiveRetire
    | GiveFree(gen: nat, cfg: Config)
    | FreeRead(cfg: Config)
    | FreeWrite(cfg: Config)
    | LeaveWork(cfg: Config)

  datatype Phase = Vacant | Open | Reporting | Retired

  /** What a finished tenancy leaves behind. */
  datatype Tenancy = Tenancy(
    gen: nat, cfg: Config, reports: seq<Side>, deletions: nat, read: SideState, write: SideState)

  datatype State = State(
    gen: nat, refs: int, phase: Phase, cfg: Config,
    read: SideState, write: SideState, closed: bool,
    agents: seq<Agent>,
    reports: seq<Side>, deletions: nat, past: seq<Tenancy>,
    heldRead: int, heldWrite: int, heldWork: int,  // queue references and loop work held for tenants
    asked: bool)                                   // a cancel with a current handle has come to this tenant
  {
    function At(side: Side): SideState {
      if side == Readable then read else write
    }
  }

  function Other(side: Side): Side {
    if side == Readable then Writable else Readable
  }

  // ---------------------------------------------------------------------------
  // Frames
  // ---------------------------------------------------------------------------

  predicate SameSlot(s: State, s': State) {
    s'.gen == s.gen && s'.phase == s.phase && s'.cfg == s.cfg
  }

  predicate SameRecord(s: State, s': State) {
    s'.reports == s.reports && s'.deletions == s.deletions && s'.past == s.past
  }

  predicate SameHoldings(s: State, s': State) {
    s'.heldRead == s.heldRead && s'.heldWrite == s.heldWrite && s'.heldWork == s.heldWork
  }

  predicate SameTenancy(s: State, s': State) {
    SameSlot(s, s') && SameRecord(s, s') && SameHoldings(s, s')
  }

  predicate SameWord(s: State, s': State) {
    s'.read == s.read && s'.write == s.write && s'.closed == s.closed && s'.asked == s.asked
  }

  /** Only the given side of the word changes, and to `v`. */
  predicate SideBecomes(s: State, s': State, side: Side, v: SideState) {
    && s'.At(side) == v && s'.At(Other(side)) == s.At(Other(side))
    && s'.closed == s.closed && s'.asked == s.asked
  }

  predicate Turns(s: State, s': State, t: nat, agent: Agent)
    requires t < |s.agents|
  {
    s'.agents == s.agents[t := agent]
  }

  predicate TurnsAndSpawns(s: State, s': State, t: nat, agent: Agent, spawned: Agent)
    requires t < |s.agents|
  {
    s'.agents == s.agents[t := agent] + [spawned]
  }

  // ---------------------------------------------------------------------------
  // Taking a reference and checking the generation
  // ---------------------------------------------------------------------------

  /** ntt_event_acquire_if_live: no reference is ever taken from zero. */
  predicate AcquireStep(s: State, s': State, t: nat)
    requires t < |s.agents| && (s.agents[t].DispatchAcquire? || s.agents[t].CancelAcquire?)
  {
    && SameTenancy(s, s') && SameWord(s, s')
    && if s.refs == 0 then s'.refs == 0 && Turns(s, s', t, Done)
       else
         && s'.refs == s.refs + 1
         && Turns(s, s', t, match s.agents[t]
                            case DispatchAcquire(gen, mask) => DispatchCheck(gen, mask)
                            case CancelAcquire(gen) => CancelCheck(gen))
  }

  /** What a dispatcher does once its handle is known to be current. */
  function AfterCheck(cfg: Config, gen: nat, mask: Mask): Agent {
    var read, write := cfg.Concerns(mask, Readable), cfg.Concerns(mask, Writable);
    if !cfg.serial then DirectNext(gen, read, write)
    else if read || write then Publish(gen, read, write)
    else Leaving(gen)
  }

  /** The side once the kernel's report of it has been accepted. */
  function Reported(v: SideState, yes: bool): SideState {
    if yes then v.(owed := true) else v
  }

  /** The handle is checked; what it was used for is on record from here on. */
  predicate CheckStep(s: State, s': State, t: nat)
    requires t < |s.agents| && (s.agents[t].DispatchCheck? || s.agents[t].CancelCheck?)
  {
    var current := s.gen == s.agents[t].gen;
    && SameTenancy(s, s') && s'.closed == s.closed && s'.refs == s.refs
    && match s.agents[t]
       case DispatchCheck(gen, mask) =>
         && s'.read == Reported(s.read, current && s.cfg.wantRead && (mask.input || mask.failure))
         && s'.write == Reported(s.write, current && s.cfg.wantWrite && (mask.output || mask.failure))
         && s'.asked == s.asked
         && Turns(s, s', t, if current then AfterCheck(s.cfg, gen, mask) else Leaving(gen))
       case CancelCheck(gen) =>
         && s'.read == s.read && s'.write == s.write && s'.asked == (s.asked || current)
         && Turns(s, s', t, if current then CancelClose(gen) else Leaving(gen))
  }

  // ---------------------------------------------------------------------------
  // Dispatch
  // ---------------------------------------------------------------------------

  /** The side once a handler call has begun in it. */
  function Called(s: State, side: Side): SideState {
    var v := s.At(side);
    v.(owed := false, late := if s.closed then v.late + 1 else v.late)
  }

  /** A descriptor that is not serialized is served on the spot, readable side first. */
  predicate DirectStep(s: State, s': State, t: nat)
    requires t < |s.agents| && (s.agents[t].DirectNext? || s.agents[t].DirectCall?)
  {
    && SameTenancy(s, s') && s'.refs == s.refs
    && match s.agents[t]
       case DirectNext(gen, read, write) =>
         if read then SideBecomes(s, s', Readable, Called(s, Readable))
             && Turns(s, s', t, DirectCall(gen, Readable, write))
         else if write then SideBecomes(s, s', Writable, Called(s, Writable))
             && Turns(s, s', t, DirectCall(gen, Writable, false))
         else SameWord(s, s') && Turns(s, s', t, Leaving(gen))
       case DirectCall(gen, side, write) => SameWord(s, s') && Turns(s, s', t, DirectNext(gen, false, write))
  }

  function Notified(v: SideState, yes: bool): SideState {
    if yes then v.(ready := true) else v
  }

  predicate PublishStep(s: State, s': State, t: nat)
    requires t < |s.agents| && s.agents[t].Publish?
  {
    var Publish(gen, read, write) := s.agents[t];
    && SameTenancy(s, s') && s'.refs == s.refs && s'.closed == s.closed && s'.asked == s.asked
    && s'.read == Notified(s.read, read) && s'.write == Notified(s.write, write)
    && Turns(s, s', t, if write then Claim(gen, Writable, read) else Claim(gen, Readable, false))
  }

  /** Where a dispatcher goes once it is through with a side. */
  function AfterSide(gen: nat, read: bool): Agent {
    if read then Claim(gen, Readable, false) else Leaving(gen)
  }

  predicate CanClaim(s: State, side: Side) {
    s.At(side).ready && !s.At(side).busy && !s.closed
  }

  /** ntt_event_claim_side. */
  predicate ClaimStep(s: State, s': State, t: nat)
    requires t < |s.agents| && s.agents[t].Claim?
  {
    var Claim(gen, side, read) := s.agents[t];
    && SameTenancy(s, s') && s'.refs == s.refs
    && if CanClaim(s, side) then
         && SideBecomes(s, s', side, s.At(side).(ready := false, busy := true))
         && Turns(s, s', t, if s.cfg.HasQueue(side) then PostReference(gen, side, read) else ServeNext(gen, side, read))
       else SameWord(s, s') && Turns(s, s', t, AfterSide(gen, read))
  }

  /** ntt_event_post_side: the reference of the task first, the push after it. */
  predicate PostStep(s: State, s': State, t: nat)
    requires t < |s.agents| && (s.agents[t].PostReference? || s.agents[t].PostPush?)
  {
    && SameTenancy(s, s') && SameWord(s, s')
    && match s.agents[t]
       case PostReference(gen, side, read) => s'.refs == s.refs + 1 && Turns(s, s', t, PostPush(gen, side, read))
       case PostPush(gen, side, read) =>
         s'.refs == s.refs && TurnsAndSpawns(s, s', t, AfterSide(gen, read), TaskNext(gen, side))
  }

  /** A handler call of a claimed side begins. */
  predicate CallStep(s: State, s': State, t: nat)
    requires t < |s.agents| && (s.agents[t].ServeNext? || s.agents[t].TaskNext?)
  {
    && SameTenancy(s, s') && s'.refs == s.refs
    && SideBecomes(s, s', s.agents[t].side, Called(s, s.agents[t].side))
    && Turns(s, s', t, match s.agents[t]
                       case ServeNext(gen, side, read) => ServeCall(gen, side, read)
                       case TaskNext(gen, side) => TaskCall(gen, side))
  }

  /** A notification that came during the call keeps the side taken. */
  predicate MustServeAgain(s: State, side: Side) {
    s.At(side).ready && !s.closed
  }

  /** The call returns and ntt_event_leave_side decides what is next. */
  predicate LeaveStep(s: State, s': State, t: nat)
    requires t < |s.agents| && (s.agents[t].ServeCall? || s.agents[t].TaskCall?)
  {
    var side := s.agents[t].side;
    var again := MustServeAgain(s, side);
    && SameTenancy(s, s') && s'.refs == s.refs
    && SideBecomes(s, s', side, s.At(side).(ready := false, busy := again))
    && Turns(s, s', t, match s.agents[t]
                       case ServeCall(gen, side, read) => if again then ServeNext(gen, side, read)
                           else AfterSide(gen, read)
                       case TaskCall(gen, side) => if again then TaskNext(gen, side) else Leaving(gen))
  }

  // ---------------------------------------------------------------------------
  // Cancellation
  // ---------------------------------------------------------------------------

  /** ntt_event_cancel: whoever sets CLOSED deletes the descriptor and drops the start reference. */
  predicate CancelStep(s: State, s': State, t: nat)
    requires t < |s.agents| && (s.agents[t].CancelClose? || s.agents[t].CancelDrop?)
  {
    && SameTenancy(s, s') && s'.read == s.read && s'.write == s.write && s'.asked == s.asked
    && match s.agents[t]
       case CancelClose(gen) =>
         s'.closed && s'.refs == s.refs && Turns(s, s', t, if s.closed then Leaving(gen) else CancelDelete(gen))
       case CancelDrop(gen) => s'.closed == s.closed && s'.refs == s.refs - 1 && Turns(s, s', t, Leaving(gen))
  }

  predicate DeleteStep(s: State, s': State, t: nat)
    requires t < |s.agents| && s.agents[t].CancelDelete?
  {
    && SameSlot(s, s') && SameHoldings(s, s') && SameWord(s, s') && s'.refs == s.refs
    && s'.deletions == s.deletions + 1 && s'.reports == s.reports && s'.past == s.past
    && Turns(s, s', t, CancelDrop(s.agents[t].gen))
  }

  /** ntt_event_release: whoever drops the last reference starts the reports. */
  predicate ReleaseStep(s: State, s': State, t: nat)
    requires t < |s.agents| && s.agents[t].Leaving?
  {
    var last := s.refs == 1;
    && SameRecord(s, s') && SameHoldings(s, s') && SameWord(s, s') && s'.refs == s.refs - 1
    && s'.gen == s.gen && s'.cfg == s.cfg && s'.phase == (if last then Reporting else s.phase)
    && if !last then Turns(s, s', t, Done)
       else if s.cfg.readQueue || s.cfg.writeQueue then TurnsAndSpawns(s, s', t, Done, ReportNext(s.cfg.FirstReport()))
       else Turns(s, s', t, ReportNext(s.cfg.FirstReport()))
  }

  // ---------------------------------------------------------------------------
  // Reporting the cancellation and giving the slot back
  // ---------------------------------------------------------------------------

  /** A cancelled callback begins, or returns. */
  predicate ReportStep(s: State, s': State, t: nat)
    requires t < |s.agents| && (s.agents[t].ReportNext? || s.agents[t].ReportCall?)
  {
    && SameSlot(s, s') && SameHoldings(s, s') && SameWord(s, s') && s'.refs == s.refs
    && s'.deletions == s.deletions && s'.past == s.past
    && match s.agents[t]
       case ReportNext(side) => s'.reports == s.reports + [side] && Turns(s, s', t, ReportCall(side))
       case ReportCall(side) =>
         && s'.reports == s.reports
         && if side == Writable && s.cfg.readQueue then TurnsAndSpawns(s, s', t, Done, ReportNext(Readable))
            else Turns(s, s', t, GiveRetire)
  }

  /** ntt_slab_give: the generation moves first, the slot becomes free after it. */
  predicate GiveStep(s: State, s': State, t: nat)
    requires t < |s.agents| && (s.agents[t].GiveRetire? || s.agents[t].GiveFree?)
  {
    && SameHoldings(s, s') && SameWord(s, s') && s'.refs == s.refs
    && s'.cfg == s.cfg && s'.reports == s.reports && s'.deletions == s.deletions
    && match s.agents[t]
       case GiveRetire =>
         && s'.gen == s.gen + 1 && s'.phase == Retired && s'.past == s.past
         && Turns(s, s', t, GiveFree(s.gen, s.cfg))
       case GiveFree(gen, cfg) =>
         && s'.gen == s.gen && s'.phase == Vacant
         && s'.past == s.past + [Tenancy(gen, s.cfg, s.reports, s.deletions, s.read, s.write)]
         && Turns(s, s', t, FreeRead(cfg))
  }

  /** The rest of ntt_event_finish, on what was read before the slot was given away. */
  predicate FinishStep(s: State, s': State, t: nat)
    requires t < |s.agents| && (s.agents[t].FreeRead? || s.agents[t].FreeWrite? || s.agents[t].LeaveWork?)
  {
    && SameSlot(s, s') && SameRecord(s, s') && SameWord(s, s') && s'.refs == s.refs
    && match s.agents[t]
       case FreeRead(cfg) =>
         && s'.heldRead == s.heldRead - (if cfg.readQueue then 1 else 0)
         && s'.heldWrite == s.heldWrite && s'.heldWork == s.heldWork
         && Turns(s, s', t, FreeWrite(cfg))
       case FreeWrite(cfg) =>
         && s'.heldWrite == s.heldWrite - (if cfg.writeQueue then 1 else 0)
         && s'.heldRead == s.heldRead && s'.heldWork == s.heldWork
         && Turns(s, s', t, LeaveWork(cfg))
       case LeaveWork(cfg) =>
         && s'.heldWork == s.heldWork - (if cfg.work then 1 else 0)
         && s'.heldRead == s.heldRead && s'.heldWrite == s.heldWrite
         && Turns(s, s', t, Done)
  }

  // ---------------------------------------------------------------------------
  // Runs
  // ---------------------------------------------------------------------------

  /** The next step of agent `t`. */
  predicate AgentStep(s: State, s': State, t: nat)
    requires t < |s.agents|
  {
    match s.agents[t]
    case Done => false
    case DispatchAcquire(_, _) => AcquireStep(s, s', t)
    case CancelAcquire(_) => AcquireStep(s, s', t)
    case DispatchCheck(_, _) => CheckStep(s, s', t)
    case CancelCheck(_) => CheckStep(s, s', t)
    case DirectNext(_, _, _) => DirectStep(s, s', t)
    case DirectCall(_, _, _) => DirectStep(s, s', t)
    case Publish(_, _, _) => PublishStep(s, s', t)
    case Claim(_, _, _) => ClaimStep(s, s', t)
    case PostReference(_, _, _) => PostStep(s, s', t)
    case PostPush(_, _, _) => PostStep(s, s', t)
    case ServeNext(_, _, _) => CallStep(s, s', t)
    case TaskNext(_, _) => CallStep(s, s', t)
    case ServeCall(_, _, _) => LeaveStep(s, s', t)
    case TaskCall(_, _) => LeaveStep(s, s', t)
    case Leaving(_) => ReleaseStep(s, s', t)
    case CancelClose(_) => CancelStep(s, s', t)
    case CancelDrop(_) => CancelStep(s, s', t)
    case CancelDelete(_) => DeleteStep(s, s', t)
    case ReportNext(_) => ReportStep(s, s', t)
    case ReportCall(_) => ReportStep(s, s', t)
    case GiveRetire => GiveStep(s, s', t)
    case GiveFree(_, _) => GiveStep(s, s', t)
    case _ => FinishStep(s, s', t)
  }

  /** ntt_event_open: a vacant slot gets a new tenant. */
  predicate OpenStep(s: State, s': State, cfg: Config) {
    && s.phase == Vacant && s'.phase == Open
    && s'.gen == s.gen && s'.refs == 1 && s'.cfg == cfg
    && s'.read == s'.write == QUIET && !s'.closed && !s'.asked
    && s'.agents == s.agents && s'.past == s.past
    && s'.reports == [] && s'.deletions == 0
    && s'.heldRead == s.heldRead + (if cfg.readQueue then 1 else 0)
    && s'.heldWrite == s.heldWrite + (if cfg.writeQueue then 1 else 0)
    && s'.heldWork == s.heldWork + (if cfg.work then 1 else 0)
  }

  /** A notification or a cancellation may come with any handle of the slot, at any time. */
  predicate ArriveStep(s: State, s': State, agent: Agent) {
    && (agent.DispatchAcquire? || agent.CancelAcquire?)
    && s' == s.(agents := s.agents + [agent])
  }

  /** A slot the slab has just carved out: generation one, no tenant yet. */
  predicate Init(s: State) {
    && s.gen == 1 && s.refs == 0 && s.phase == Vacant && s.agents == [] && s.past == []
    && s.read == s.write == QUIET && !s.closed && !s.asked
    && s.heldRead == s.heldWrite == s.heldWork == 0
  }

  ghost predicate Next(s: State, s': State) {
    || (exists t: nat :: t < |s.agents| && AgentStep(s, s', t))
    || (exists cfg :: OpenStep(s, s', cfg))
    || (exists agent :: ArriveStep(s, s', agent))
  }

  ghost predicate Linked(run: seq<State>, i: nat)
    requires 0 < i < |run|
  {
    Next(run[i - 1], run[i])
  }

  ghost predicate Execution(run: seq<State>) {
    && |run| > 0
    && Init(run[0])
    && forall i | 0 < i < |run| :: Linked(run, i)
  }
}
