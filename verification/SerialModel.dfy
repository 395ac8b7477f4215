/**
 The queues and the combine as values: what a push, a body, a turn of a queue
 and a round of turns make of them. The class in SerialService is proved to do
 what these functions say, and how many turns it takes to serve everything is
 worked out on them.
 */
module SerialModel {
  import opened Tally
  import opened Tasks

  function Ids(tasks: seq<Task>): seq<nat> { seq(|tasks|, i requires 0 <= i < |tasks| => tasks[i].id) }

  // ---------------------------------------------------------------------------
  // The state of all queues
  // ---------------------------------------------------------------------------

  /** Every task in the lists may be run. */
  ghost predicate AllFit(lists: seq<seq<Task>>) {
    forall q, i | 0 <= q < |lists| && 0 <= i < |lists[q]| :: Fits(lists[q][i], |lists|)
  }

  /** Tasks leave a queue in the order they came. */
  ghost predicate Ordered(lists: seq<seq<Task>>, pushed: seq<seq<nat>>, ran: seq<seq<nat>>) {
    && |pushed| == |lists| && |ran| == |lists|
    && forall q | 0 <= q < |lists| :: pushed[q] == ran[q] + Ids(lists[q])
  }

  lemma OrderedSizes(lists: seq<seq<Task>>, pushed: seq<seq<nat>>, ran: seq<seq<nat>>)
    requires Ordered(lists, pushed, ran)
    ensures |pushed| == |ran| == |lists|
  {
  }

  /** Every queue but `busy` is linked, once, exactly while it has tasks. */
  ghost predicate Linked(lists: seq<seq<Task>>, combine: seq<nat>, busy: int) {
    && (forall q | 0 <= q < |lists| :: multiset(combine)[q] == One(lists[q] != [] && q != busy))
    && (forall i | 0 <= i < |combine| :: combine[i] < |lists|)
  }

  /** The reference of the run: while a queue has tasks, and until its service is over. */
  ghost predicate Referenced(lists: seq<seq<Task>>, refs: seq<nat>, busy: int) {
    && |refs| == |lists|
    && forall q | 0 <= q < |lists| :: refs[q] == One(lists[q] != [] || q == busy)
  }

  /** Entries were only added. */
  ghost predicate Grew(before: seq<seq<nat>>, after: seq<seq<nat>>) {
    |before| == |after| && forall q | 0 <= q < |before| :: before[q] <= after[q]
  }

  /** Of all queues only `q` has run bodies, `n` of them. */
  ghost predicate RanOnly(before: seq<seq<nat>>, after: seq<seq<nat>>, q: nat, n: int) {
    && |before| == |after| && q < |before|
    && |after[q]| == |before[q]| + n
    && forall p | 0 <= p < |before| && p != q :: after[p] == before[p]
  }

  lemma RanNone(ran: seq<seq<nat>>, q: nat)
    requires q < |ran|
    ensures RanOnly(ran, ran, q, 0) && Grew(ran, ran)
  {
  }

  lemma RanMore(before: seq<seq<nat>>, between: seq<seq<nat>>, after: seq<seq<nat>>, q: nat, n: int, m: int)
    requires RanOnly(before, between, q, n) && RanOnly(between, after, q, m)
    ensures RanOnly(before, after, q, n + m)
  {
  }

  lemma GrewOn(before: seq<seq<nat>>, between: seq<seq<nat>>, after: seq<seq<nat>>)
    requires Grew(before, between) && Grew(between, after)
    ensures Grew(before, after)
  {
    forall q | 0 <= q < |before| ensures before[q] <= after[q] {
      assert before[q] <= between[q] <= after[q];
    }
  }

  lemma GrewMore(before: seq<seq<nat>>, after: seq<seq<nat>>, q: nat, id: nat)
    requires Grew(before, after) && q < |after|
    ensures Grew(before, after[q := after[q] + [id]])
  {
  }

  lemma PushOrdered(lists: seq<seq<Task>>, pushed: seq<seq<nat>>, ran: seq<seq<nat>>, q: nat, task: Task)
    requires Ordered(lists, pushed, ran) && q < |lists|
    ensures |pushed| == |ran| == |lists|
    ensures Ordered(lists[q := lists[q] + [task]], pushed[q := pushed[q] + [task.id]], ran)
  {
    assert Ids(lists[q] + [task]) == Ids(lists[q]) + [task.id];
  }

  lemma PopOrdered(lists: seq<seq<Task>>, pushed: seq<seq<nat>>, ran: seq<seq<nat>>, q: nat)
    requires Ordered(lists, pushed, ran) && q < |lists| && lists[q] != []
    ensures |pushed| == |ran| == |lists|
    ensures Ordered(lists[q := lists[q][1..]], pushed, ran[q := ran[q] + [lists[q][0].id]])
  {
    assert Ids(lists[q]) == [lists[q][0].id] + Ids(lists[q][1..]);
  }

  lemma PushLinked(lists: seq<seq<Task>>, combine: seq<nat>, busy: int, q: nat, task: Task)
    requires Linked(lists, combine, busy) && q < |lists| && (q == busy ==> lists[q] != [])
    ensures Linked(lists[q := lists[q] + [task]], combine + if lists[q] == [] then [q] else [], busy)
  {
  }

  lemma PushWeighs(lists: seq<seq<Task>>, q: nat, task: Task)
    requires q < |lists|
    ensures Sum(lists[q := lists[q] + [task]], ListWeight()) == Sum(lists, ListWeight()) + Weight(task)
  {
    SumAppend(lists[q], task, WeightOf());
    SumUpdate(lists, q, lists[q] + [task], ListWeight());
  }

  lemma PopWeighs(lists: seq<seq<Task>>, q: nat)
    requires q < |lists| && lists[q] != []
    ensures Sum(lists[q := lists[q][1..]], ListWeight()) == Sum(lists, ListWeight()) - Weight(lists[q][0])
  {
    SumFirst(lists[q], WeightOf());
    SumUpdate(lists, q, lists[q][1..], ListWeight());
  }

  /** A queue that is served out needs no link, and one that is not can be linked again. */
  lemma ServiceOver(lists: seq<seq<Task>>, combine: seq<nat>, q: nat)
    requires Linked(lists, combine, q) && q < |lists|
    ensures if lists[q] == [] then Linked(lists, combine, -1) else Linked(lists, combine + [q], -1)
  {
  }

  lemma PopLinked(lists: seq<seq<Task>>, combine: seq<nat>, q: nat)
    requires Linked(lists, combine, q) && q < |lists| && lists[q] != []
    ensures Linked(lists[q := lists[q][1..]], combine, q)
  {
  }

  lemma TakeLinked(lists: seq<seq<Task>>, combine: seq<nat>)
    requires Linked(lists, combine, -1) && combine != []
    ensures combine[0] < |lists| && lists[combine[0]] != [] && Linked(lists, combine[1..], combine[0])
  {
    assert combine == [combine[0]] + combine[1..];
  }

  lemma EmptyIsUnlinked(lists: seq<seq<Task>>, combine: seq<nat>, q: nat)
    requires Linked(lists, combine, -1) && q < |lists| && lists[q] == []
    ensures q !in combine
  {
  }

  lemma UnlinkedIsEmpty(lists: seq<seq<Task>>)
    requires Linked(lists, [], -1)
    ensures (forall q | 0 <= q < |lists| :: lists[q] == []) && Sum(lists, ListWeight()) == 0
  {
    SumZero(lists, ListWeight());
  }

  // ---------------------------------------------------------------------------
  // What service makes of it
  // ---------------------------------------------------------------------------

  datatype Queues = Queues(lists: seq<seq<Task>>, combine: seq<nat>)

  /** ntt_queue_push_task: the queue is linked if it was empty. */
  function Pushed(v: Queues, q: nat, task: Task): Queues
    requires q < |v.lists|
  {
    Queues(v.lists[q := v.lists[q] + [task]], v.combine + if v.lists[q] == [] then [q] else [])
  }

  /** The first `k` pushes of a body. */
  ghost function BodyRun(v: Queues, task: Task, k: nat): (r: Queues)
    requires k <= |task.pushes| && Fits(task, |v.lists|) && AllFit(v.lists)
    ensures |r.lists| == |v.lists| && AllFit(r.lists)
    ensures forall p | 0 <= p < |v.lists| :: v.lists[p] <= r.lists[p]
  {
    if k == 0 then v else Pushed(BodyRun(v, task, k - 1), task.pushes[k - 1].queue, task.pushes[k - 1].task)
  }

  /** The body of the head of `q` runs with the head linked, and then the head goes. */
  ghost function HeadServed(v: Queues, q: nat): (r: Queues)
    requires q < |v.lists| && v.lists[q] != [] && AllFit(v.lists)
    ensures |r.lists| == |v.lists| && AllFit(r.lists)
  {
    var w := BodyRun(v, v.lists[q][0], |v.lists[q][0].pushes|);
    w.(lists := w.lists[q := w.lists[q][1..]])
  }

  /** Up to `limit` tasks of `q` are served. */
  ghost function Turn(v: Queues, q: nat, limit: nat): (r: Queues)
    requires q < |v.lists| && AllFit(v.lists)
    ensures |r.lists| == |v.lists| && AllFit(r.lists)
    decreases limit
  {
    if limit == 0 || v.lists[q] == [] then v else Turn(HeadServed(v, q), q, limit - 1)
  }

  lemma TurnServesHead(v: Queues, q: nat, limit: nat)
    requires q < |v.lists| && AllFit(v.lists) && v.lists[q] != [] && limit > 0
    ensures Turn(v, q, limit) == Turn(HeadServed(v, q), q, limit - 1)
  {
  }

  /** A turn is over once its limit is reached or the queue is empty. */
  lemma TurnIsOver(v: Queues, q: nat, limit: nat)
    requires q < |v.lists| && AllFit(v.lists) && (v.lists[q] == [] || limit == 0)
    ensures Turn(v, q, limit) == v
  {
  }

  ghost predicate Sound(v: Queues, busy: int) {
    AllFit(v.lists) && Linked(v.lists, v.combine, busy)
  }

  /** The queue linked first has its turn and, if tasks are left in it, is linked last. */
  ghost function AfterTurn(v: Queues, limit: nat): (r: Queues)
    requires Sound(v, -1) && limit > 0
    ensures Sound(r, -1) && |r.lists| == |v.lists|
  {
    if v.combine == [] then v
    else
      TakeLinked(v.lists, v.combine);
      var q := v.combine[0];
      var w := Turn(v.(combine := v.combine[1..]), q, limit);
      TurnKeeps(v.(combine := v.combine[1..]), q, limit);
      ServiceOver(w.lists, w.combine, q);
      if w.lists[q] == [] then w else w.(combine := w.combine + [q])
  }

  /** The first `n` turns. */
  ghost function After(v: Queues, limit: nat, n: nat): (r: Queues)
    requires Sound(v, -1) && limit > 0
    ensures Sound(r, -1)
  {
    if n == 0 then v else AfterTurn(After(v, limit, n - 1), limit)
  }

  ghost function Pending(v: Queues): nat { Sum(v.lists, ListWeight()) }

  lemma {:induction false} BodyKeeps(v: Queues, q: nat, task: Task, k: nat)
    requires q < |v.lists| && v.lists[q] != [] && Sound(v, q) && k <= |task.pushes| && Fits(task, |v.lists|)
    ensures Sound(BodyRun(v, task, k), q) && Pending(BodyRun(v, task, k)) == Pending(v) + PushesWeight(task, k)
  {
    hide Linked, Sum;
    if k > 0 {
      BodyKeeps(v, q, task, k - 1);
      var w := BodyRun(v, task, k - 1);
      PushLinked(w.lists, w.combine, q, task.pushes[k - 1].queue, task.pushes[k - 1].task);
      PushWeighs(w.lists, task.pushes[k - 1].queue, task.pushes[k - 1].task);
    }
  }

  lemma HeadKeeps(v: Queues, q: nat)
    requires q < |v.lists| && v.lists[q] != [] && Sound(v, q)
    ensures Sound(HeadServed(v, q), q) && Pending(HeadServed(v, q)) == Pending(v) - 1
  {
    hide Linked, Sum;
    var task := v.lists[q][0];
    BodyKeeps(v, q, task, |task.pushes|);
    var w := BodyRun(v, task, |task.pushes|);
    PopLinked(w.lists, w.combine, q);
    PopWeighs(w.lists, q);
  }

  lemma {:induction false} TurnKeeps(v: Queues, q: nat, limit: nat)
    requires q < |v.lists| && Sound(v, q)
    ensures Sound(Turn(v, q, limit), q)
    ensures Pending(Turn(v, q, limit)) <= Pending(v)
    ensures limit > 0 && v.lists[q] != [] ==> Pending(Turn(v, q, limit)) < Pending(v)
    decreases limit
  {
    hide Linked, Sum;
    if limit > 0 && v.lists[q] != [] {
      HeadKeeps(v, q);
      TurnKeeps(HeadServed(v, q), q, limit - 1);
    }
  }

  /** Once nothing is linked, further turns find nothing. */
  lemma {:induction false} NothingComesOfNothing(v: Queues, limit: nat, n: nat, m: nat)
    requires Sound(v, -1) && limit > 0 && n <= m && After(v, limit, n).combine == []
    ensures After(v, limit, m) == After(v, limit, n)
  {
    hide Sound;
    if n < m {
      NothingComesOfNothing(v, limit, n, m - 1);
    }
  }
}
