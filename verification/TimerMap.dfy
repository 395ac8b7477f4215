/**
 What the timer heap is supposed to be: a map from tags to armed timers from
 which svc takes the first due one, by deadline and then by the order of
 arming, until none is due, while the tasks it runs arm and cancel others.
 */
module TimerMap {
  import opened TimerHeapModel

  datatype Timers = Timers(armed: map<Tag, Timer>, issued: set<Tag>, next: nat)

  /** The timer that fires first: no armed timer has an earlier deadline, nor the same one and an earlier arming. */
  ghost predicate First(m: Timers, tag: Tag) {
    && tag in m.armed
    && forall t | t in m.armed ::
         || m.armed[tag].deadline < m.armed[t].deadline
         || (m.armed[tag].deadline == m.armed[t].deadline && m.armed[tag].order <= m.armed[t].order)
  }

  function Add(m: Timers, tag: Tag, deadline: nat, task: Task): Timers {
    Timers(m.armed[tag := Timer(deadline, m.next, task)], m.issued + {tag}, m.next + 1)
  }

  function Remove(m: Timers, tag: Tag): Timers {
    m.(armed := m.armed - {tag})
  }

  /** What a script makes of the timers when its pushes return the given tags. */
  function Exec(m: Timers, script: Script, tags: seq<Tag>): Timers
    decreases script
  {
    match script
    case End => m
    case Arm(deadline, task, rest) =>
      if tags == [] then m else Exec(Add(m, tags[0], deadline, task), rest, tags[1..])
    case Cancel(tag, rest) => Exec(Remove(m, tag), rest, tags)
    case Peek(rest) => Exec(m, rest, tags)
  }

  /** The tags are one for each push, and none of them was issued before. */
  predicate TagsFit(m: Timers, script: Script, tags: seq<Tag>)
    decreases script
  {
    match script
    case End => tags == []
    case Arm(deadline, task, rest) =>
      tags != [] && tags[0] !in m.issued && TagsFit(Add(m, tags[0], deadline, task), rest, tags[1..])
    case Cancel(tag, rest) => TagsFit(Remove(m, tag), rest, tags)
    case Peek(rest) => TagsFit(m, rest, tags)
  }

  /** A timer that fired, and the tags its task was given. */
  datatype Firing = Firing(tag: Tag, timer: Timer, tags: seq<Tag>)

  /** The timer is retired before its task runs. */
  function After(m: Timers, f: Firing): Timers {
    Exec(Remove(m, f.tag), f.timer.task.script, f.tags)
  }

  ghost predicate Fires(m: Timers, now: nat, f: Firing) {
    && First(m, f.tag) && m.armed[f.tag] == f.timer && f.timer.deadline <= now
    && TagsFit(Remove(m, f.tag), f.timer.task.script, f.tags)
  }

  function Replay(m: Timers, log: seq<Firing>): Timers {
    if log == [] then m else After(Replay(m, log[..|log| - 1]), log[|log| - 1])
  }

  /** Every firing of the log took the first timer armed at that moment, and it was due. */
  ghost predicate Legal(m: Timers, now: nat, log: seq<Firing>) {
    log != [] ==>
      var n := |log| - 1;
      Legal(m, now, log[..n]) && Fires(Replay(m, log[..n]), now, log[n])
  }

  predicate NoneDue(m: Timers, now: nat) {
    forall t | t in m.armed :: m.armed[t].deadline > now
  }

  /** What ntt_timer_heap_svc promises: a legal log after which nothing is due. */
  ghost predicate Served(m: Timers, now: nat, log: seq<Firing>, m': Timers) {
    Legal(m, now, log) && m' == Replay(m, log) && NoneDue(m', now)
  }

  lemma ReplayOneMore(m: Timers, now: nat, log: seq<Firing>, f: Firing)
    requires Legal(m, now, log) && Fires(Replay(m, log), now, f)
    ensures Legal(m, now, log + [f]) && Replay(m, log + [f]) == After(Replay(m, log), f)
  {
    assert (log + [f])[..|log|] == log;
  }

  // ---------------------------------------------------------------------------
  // The order of firing
  // ---------------------------------------------------------------------------

  /** Armed timers have orders of their own, all of them given out before. */
  ghost predicate OrdersSound(m: Timers) {
    && (forall t | t in m.armed :: m.armed[t].order < m.next)
    && (forall t, u | t in m.armed && u in m.armed && t != u :: m.armed[t].order != m.armed[u].order)
  }

  lemma AddKeepsOrders(m: Timers, tag: Tag, deadline: nat, task: Task)
    requires OrdersSound(m)
    ensures OrdersSound(Add(m, tag, deadline, task)) && OrdersSound(Remove(m, tag))
  {
  }

  lemma {:induction false} ExecKeepsOrders(m: Timers, script: Script, tags: seq<Tag>)
    requires OrdersSound(m)
    ensures OrdersSound(Exec(m, script, tags)) && Exec(m, script, tags).next >= m.next
    decreases script
  {
    hide OrdersSound;
    match script
    case End =>
    case Arm(deadline, task, rest) =>
      if tags != [] {
        AddKeepsOrders(m, tags[0], deadline, task);
        ExecKeepsOrders(Add(m, tags[0], deadline, task), rest, tags[1..]);
      }
    case Cancel(tag, rest) =>
      AddKeepsOrders(m, tag, 0, Task(0, End));
      ExecKeepsOrders(Remove(m, tag), rest, tags);
    case Peek(rest) => ExecKeepsOrders(m, rest, tags);
  }

  lemma {:induction false} ReplayKeepsOrders(m: Timers, log: seq<Firing>)
    requires OrdersSound(m)
    ensures OrdersSound(Replay(m, log)) && Replay(m, log).next >= m.next
  {
    hide OrdersSound;
    if log != [] {
      var before, f := log[..|log| - 1], log[|log| - 1];
      ReplayKeepsOrders(m, before);
      AddKeepsOrders(Replay(m, before), f.tag, 0, f.timer.task);
      ExecKeepsOrders(Remove(Replay(m, before), f.tag), f.timer.task.script, f.tags);
    }
  }

  lemma {:induction false} LegalPrefix(m: Timers, now: nat, log: seq<Firing>, k: nat)
    requires Legal(m, now, log) && k < |log|
    ensures Fires(Replay(m, log[..k]), now, log[k])
  {
    var n := |log| - 1;
    if k < n {
      LegalPrefix(m, now, log[..n], k);
      assert log[..n][..k] == log[..k];
    }
  }

  /**
   Every firing, whatever the tasks arm and cancel: the timer was due, and no
   timer armed at that moment has an earlier deadline, nor the same deadline
   and an earlier arming.
   */
  lemma FiredFirst(m: Timers, now: nat, log: seq<Firing>, k: nat, t: Tag)
    requires Legal(m, now, log) && k < |log| && t in Replay(m, log[..k]).armed
    ensures var f, other := log[k].timer, Replay(m, log[..k]).armed[t];
            && f.deadline <= now
            && (f.deadline < other.deadline || (f.deadline == other.deadline && f.order <= other.order))
  {
    LegalPrefix(m, now, log, k);
  }

  /** A timer that is armed after others has the largest order of all. */
  lemma LaterArmingLaterOrder(m: Timers, tag: Tag, deadline: nat, task: Task, t: Tag)
    requires OrdersSound(m) && t in m.armed && t != tag
    ensures var m' := Add(m, tag, deadline, task);
            t in m'.armed && m'.armed[t] == m.armed[t] && m'.armed[t].order < m'.armed[tag].order
  {
  }

  /**
   Timers of one deadline fire in the order of arming: of two that are armed
   one after the other for the same time, the second does not fire while the
   first is armed.
   */
  lemma TiesFireInOrder(
    m: Timers, first: Tag, second: Tag, deadline: nat, one: Task, two: Task, now: nat, log: seq<Firing>, k: nat)
    requires first != second
    requires Legal(Add(Add(m, first, deadline, one), second, deadline, two), now, log) && k < |log|
    requires log[k].tag == second && log[k].timer == Timer(deadline, m.next + 1, two)
    ensures var later := Replay(Add(Add(m, first, deadline, one), second, deadline, two), log[..k]);
            first !in later.armed || later.armed[first] != Timer(deadline, m.next, one)
  {
    var start := Add(Add(m, first, deadline, one), second, deadline, two);
    if first in Replay(start, log[..k]).armed {
      FiredFirst(start, now, log, k, first);
    }
  }

  // ---------------------------------------------------------------------------
  // Once and no more
  // ---------------------------------------------------------------------------

  /** The timer was armed once and is no longer. */
  predicate Gone(m: Timers, tag: Tag) { tag in m.issued && tag !in m.armed }

  lemma {:induction false} ExecNeverRevives(m: Timers, script: Script, tags: seq<Tag>, tag: Tag)
    requires TagsFit(m, script, tags) && Gone(m, tag)
    ensures Gone(Exec(m, script, tags), tag)
    decreases script
  {
    match script
    case End =>
    case Arm(deadline, task, rest) => ExecNeverRevives(Add(m, tags[0], deadline, task), rest, tags[1..], tag);
    case Cancel(other, rest) => ExecNeverRevives(Remove(m, other), rest, tags, tag);
    case Peek(rest) => ExecNeverRevives(m, rest, tags, tag);
  }

  /** The script cancels the timer at some point. */
  predicate Cancels(script: Script, tag: Tag) {
    match script
    case End => false
    case Arm(_, _, rest) => Cancels(rest, tag)
    case Cancel(other, rest) => other == tag || Cancels(rest, tag)
    case Peek(rest) => Cancels(rest, tag)
  }

  /** A timer that a task cancels is gone when the task is through. */
  lemma {:induction false} ExecCancels(m: Timers, script: Script, tags: seq<Tag>, tag: Tag)
    requires TagsFit(m, script, tags) && tag in m.issued && Cancels(script, tag)
    ensures Gone(Exec(m, script, tags), tag)
    decreases script
  {
    match script
    case Arm(deadline, task, rest) => ExecCancels(Add(m, tags[0], deadline, task), rest, tags[1..], tag);
    case Cancel(other, rest) =>
      if other == tag {
        ExecNeverRevives(Remove(m, other), rest, tags, tag);
      } else {
        ExecCancels(Remove(m, other), rest, tags, tag);
      }
    case Peek(rest) => ExecCancels(m, rest, tags, tag);
  }

  lemma ReplayOnce(m: Timers, log: seq<Firing>, k: nat)
    requires k < |log|
    ensures Replay(m, log[..k + 1]) == After(Replay(m, log[..k]), log[k])
  {
    assert log[..k + 1][..k] == log[..k];
  }

  lemma {:induction false} GoneStaysGone(m: Timers, now: nat, log: seq<Firing>, k: nat, j: nat, tag: Tag)
    requires Legal(m, now, log) && k <= j <= |log| && Gone(Replay(m, log[..k]), tag)
    ensures Gone(Replay(m, log[..j]), tag)
  {
    if k < j {
      GoneStaysGone(m, now, log, k, j - 1, tag);
      LegalPrefix(m, now, log, j - 1);
      ReplayOnce(m, log, j - 1);
      var before, f := Replay(m, log[..j - 1]), log[j - 1];
      ExecNeverRevives(Remove(before, f.tag), f.timer.task.script, f.tags, tag);
    }
  }

  /** Every timer armed has a tag that was issued. */
  predicate Issued(m: Timers) { m.armed.Keys <= m.issued }

  lemma {:induction false} ExecIssues(m: Timers, script: Script, tags: seq<Tag>)
    requires Issued(m)
    ensures Issued(Exec(m, script, tags))
    decreases script
  {
    match script
    case End =>
    case Arm(deadline, task, rest) =>
      if tags != [] { ExecIssues(Add(m, tags[0], deadline, task), rest, tags[1..]); }
    case Cancel(other, rest) => ExecIssues(Remove(m, other), rest, tags);
    case Peek(rest) => ExecIssues(m, rest, tags);
  }

  lemma {:induction false} ReplayIssues(m: Timers, log: seq<Firing>)
    requires Issued(m)
    ensures Issued(Replay(m, log))
  {
    if log != [] {
      var before, f := log[..|log| - 1], log[|log| - 1];
      ReplayIssues(m, before);
      ExecIssues(Remove(Replay(m, before), f.tag), f.timer.task.script, f.tags);
    }
  }

  /**
   A timer fires at most once, and not at all once a task has cancelled it,
   whatever the tasks arm meanwhile.
   */
  lemma FiresOnce(m: Timers, now: nat, log: seq<Firing>, k: nat, j: nat, tag: Tag)
    requires Issued(m) && Legal(m, now, log) && k < j < |log|
    requires tag == log[k].tag || (tag in Replay(m, log[..k]).issued && Cancels(log[k].timer.task.script, tag))
    ensures log[j].tag != tag
  {
    var before, f := Replay(m, log[..k]), log[k];
    ReplayIssues(m, log[..k]);
    LegalPrefix(m, now, log, k);
    ReplayOnce(m, log, k);
    if tag == f.tag {
      ExecNeverRevives(Remove(before, f.tag), f.timer.task.script, f.tags, tag);
    } else {
      ExecCancels(Remove(before, f.tag), f.timer.task.script, f.tags, tag);
    }
    GoneStaysGone(m, now, log, k + 1, j, tag);
    LegalPrefix(m, now, log, j);
  }

  // ---------------------------------------------------------------------------
  // Tasks that leave the timers alone
  // ---------------------------------------------------------------------------

  predicate Plain(m: Timers) {
    forall t | t in m.armed :: m.armed[t].task.script == End
  }

  function Due(m: Timers, now: nat): set<Tag> {
    set t | t in m.armed && m.armed[t].deadline <= now
  }

  function TagsOf(log: seq<Firing>): set<Tag> {
    if log == [] then {} else TagsOf(log[..|log| - 1]) + {log[|log| - 1].tag}
  }

  /** By deadline, and among equal deadlines by the order of arming. */
  predicate InOrder(a: Timer, b: Timer) {
    a.deadline < b.deadline || (a.deadline == b.deadline && a.order <= b.order)
  }

  ghost predicate Sorted(log: seq<Firing>) {
    forall i, j | 0 <= i < j < |log| :: InOrder(log[i].timer, log[j].timer)
  }

  /** What is still armed fires no earlier than what has fired. */
  ghost predicate LeftIsLater(m: Timers, log: seq<Firing>) {
    forall i, t | 0 <= i < |log| && t in m.armed :: InOrder(log[i].timer, m.armed[t])
  }

  /** Firing a plain timer only takes it out. */
  lemma PlainFiring(m: Timers, fired: set<Tag>, now: nat, f: Firing)
    requires Plain(m) && Fires(m.(armed := m.armed - fired), now, f)
    ensures After(m.(armed := m.armed - fired), f) == m.(armed := m.armed - (fired + {f.tag}))
    ensures f.tag in Due(m, now) && f.tag !in fired && f.timer == m.armed[f.tag]
  {
    assert m.armed - fired - {f.tag} == m.armed - (fired + {f.tag});
  }

  lemma {:induction false} PlainReplay(m: Timers, now: nat, log: seq<Firing>)
    requires Plain(m) && Legal(m, now, log)
    ensures Replay(m, log) == m.(armed := m.armed - TagsOf(log))
    ensures TagsOf(log) <= Due(m, now) && |TagsOf(log)| == |log|
  {
    if log != [] {
      var n := |log| - 1;
      PlainReplay(m, now, log[..n]);
      PlainFiring(m, TagsOf(log[..n]), now, log[n]);
    }
  }

  lemma {:induction false} PlainSorted(m: Timers, now: nat, log: seq<Firing>)
    requires Plain(m) && Legal(m, now, log)
    ensures Sorted(log) && LeftIsLater(Replay(m, log), log)
  {
    if log != [] {
      var n := |log| - 1;
      PlainSorted(m, now, log[..n]);
      PlainReplay(m, now, log[..n]);
      PlainFiring(m, TagsOf(log[..n]), now, log[n]);
      SortedOneMore(Replay(m, log[..n]), Replay(m, log), now, log);
    }
  }

  lemma SortedOneMore(m: Timers, m': Timers, now: nat, log: seq<Firing>)
    requires log != []
    requires var n := |log| - 1; Sorted(log[..n]) && LeftIsLater(m, log[..n]) && Fires(m, now, log[n])
    requires forall t | t in m'.armed :: t in m.armed && m'.armed[t] == m.armed[t]
    ensures Sorted(log) && LeftIsLater(m', log)
  {
    var n := |log| - 1;
    forall i, j | 0 <= i < j < |log| ensures InOrder(log[i].timer, log[j].timer) {
      assert log[..n][i] == log[i];
      if j < n { assert log[..n][j] == log[j]; }
    }
    forall i, t | 0 <= i < |log| && t in m'.armed ensures InOrder(log[i].timer, m'.armed[t]) {
      if i < n { assert log[..n][i] == log[i]; }
    }
  }

  /** The firing at `k` is that of an armed timer which has not fired before. */
  lemma {:induction false} PlainFirings(m: Timers, now: nat, log: seq<Firing>, k: nat)
    requires Plain(m) && Legal(m, now, log) && k < |log|
    ensures log[k].tag in TagsOf(log) && log[k].tag in m.armed && log[k].timer == m.armed[log[k].tag]
    ensures log[k].tag !in TagsOf(log[..k])
  {
    var n := |log| - 1;
    hide Plain, Fires;
    if k < n {
      PlainFirings(m, now, log[..n], k);
      assert log[..n][k] == log[k] && log[..n][..k] == log[..k];
    } else {
      PlainReplay(m, now, log[..n]);
      PlainFiring(m, TagsOf(log[..n]), now, log[n]);
    }
  }

  lemma {:induction false} PrefixLegal(m: Timers, now: nat, log: seq<Firing>, k: nat)
    requires Legal(m, now, log) && k <= |log|
    ensures Legal(m, now, log[..k])
  {
    var n := |log| - 1;
    if k < |log| {
      PrefixLegal(m, now, log[..n], k);
      assert log[..n][..k] == log[..k];
    } else {
      assert log[..k] == log;
    }
  }

  /** Plain timers fire strictly by deadline and, among equal deadlines, by the order of arming. */
  lemma PlainFireInOrder(m: Timers, now: nat, log: seq<Firing>, i: nat, j: nat)
    requires Plain(m) && Legal(m, now, log) && OrdersSound(m) && i < j < |log|
    ensures var a, b := log[i].timer, log[j].timer;
            a.deadline < b.deadline || (a.deadline == b.deadline && a.order < b.order)
  {
    PlainSorted(m, now, log);
    PlainFirings(m, now, log, i);
    PlainFirings(m, now, log, j);
    PrefixLegal(m, now, log, j);
    PlainFirings(m, now, log[..j], i);
    assert log[..j][i] == log[i];
    assert InOrder(log[i].timer, log[j].timer);
  }

  /**
   With tasks that arm and cancel nothing, svc fires exactly the timers that
   were due, in order, and leaves the others.
   */
  lemma PlainServed(m: Timers, now: nat, log: seq<Firing>, m': Timers)
    requires Plain(m) && Served(m, now, log, m')
    ensures TagsOf(log) == Due(m, now) && |log| == |Due(m, now)|
    ensures Sorted(log)
    ensures m' == m.(armed := m.armed - Due(m, now))
  {
    PlainReplay(m, now, log);
    PlainSorted(m, now, log);
    assert forall t | t in m.armed && t !in TagsOf(log) :: t in m'.armed;
  }
}
