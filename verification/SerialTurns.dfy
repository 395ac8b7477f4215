/**
 How many turns it takes to serve everything, and what the result of
 ntt_combine_svc_with_limits therefore says.

 The header documents 1 as "has to be called again". The code returns 1 when
 it has made all the turns it was allowed, whether or not the last of them left
 something behind, so the two agree except when the turns needed are exactly
 the turns allowed.
 */
module SerialTurns {
  import opened Tally
  import opened Tasks
  import opened SerialModel

  /** Something is left after fewer turns than this, and nothing after as many. */
  ghost predicate DrainsIn(v: Queues, limit: nat, turns: nat)
    requires Sound(v, -1) && limit > 0
  {
    forall n: nat :: After(v, limit, n).combine != [] <==> n < turns
  }

  /** What ntt_combine_svc_with_limits returns, by the contract of SerialService. */
  ghost predicate ReturnsOne(v: Queues, loopLimit: nat, queueLimit: nat)
    requires Sound(v, -1) && loopLimit > 0 && queueLimit > 0
  {
    After(v, queueLimit, loopLimit - 1).combine != []
  }

  /** What the header says it returns. */
  ghost predicate NeedsService(v: Queues, loopLimit: nat, queueLimit: nat)
    requires Sound(v, -1) && queueLimit > 0
  {
    After(v, queueLimit, loopLimit).combine != []
  }

  lemma TurnServes(v: Queues, limit: nat)
    requires Sound(v, -1) && limit > 0 && v.combine != []
    ensures Pending(AfterTurn(v, limit)) < Pending(v)
  {
    TakeLinked(v.lists, v.combine);
    TurnKeeps(v.(combine := v.combine[1..]), v.combine[0], limit);
  }

  lemma {:induction false} AfterShifts(v: Queues, limit: nat, n: nat)
    requires Sound(v, -1) && limit > 0 && n > 0
    ensures After(v, limit, n) == After(AfterTurn(v, limit), limit, n - 1)
  {
    if n > 1 {
      AfterShifts(v, limit, n - 1);
    }
  }

  /** Whatever the tasks push, there is such a number of turns, and it is at most the number of bodies. */
  lemma {:induction false} TurnsToDrain(v: Queues, limit: nat) returns (turns: nat)
    requires Sound(v, -1) && limit > 0
    ensures DrainsIn(v, limit, turns) && turns <= Pending(v)
    decreases Pending(v)
  {
    hide Sound;
    if v.combine == [] {
      turns := 0;
      forall n: nat ensures After(v, limit, n).combine == [] {
        NothingComesOfNothing(v, limit, 0, n);
      }
    } else {
      TurnServes(v, limit);
      var rest := TurnsToDrain(AfterTurn(v, limit), limit);
      turns := rest + 1;
      forall n: nat ensures After(v, limit, n).combine != [] <==> n < turns {
        if n > 0 {
          AfterShifts(v, limit, n);
        }
      }
    }
  }

  /**
   The exact condition: the result is 1 if and only if at least `loopLimit`
   turns are needed, something is left if and only if more are, and so the
   header is right if and only if the turns needed are not `loopLimit`.
   */
  lemma ResultExactly(v: Queues, loopLimit: nat, queueLimit: nat, turns: nat)
    requires Sound(v, -1) && loopLimit > 0 && queueLimit > 0 && DrainsIn(v, queueLimit, turns)
    ensures ReturnsOne(v, loopLimit, queueLimit) <==> turns >= loopLimit
    ensures NeedsService(v, loopLimit, queueLimit) <==> turns > loopLimit
    ensures (ReturnsOne(v, loopLimit, queueLimit) <==> NeedsService(v, loopLimit, queueLimit)) <==> turns != loopLimit
  {
  }

  // ---------------------------------------------------------------------------
  // Turns go round
  // ---------------------------------------------------------------------------

  /** What a body pushes is linked behind what is linked. */
  lemma {:induction false} BodyLinksLast(v: Queues, task: Task, k: nat)
    requires k <= |task.pushes| && Fits(task, |v.lists|) && AllFit(v.lists)
    ensures v.combine <= BodyRun(v, task, k).combine
  {
    if k > 0 {
      BodyLinksLast(v, task, k - 1);
    }
  }

  lemma {:induction false} TurnLinksLast(v: Queues, q: nat, limit: nat)
    requires q < |v.lists| && AllFit(v.lists)
    ensures v.combine <= Turn(v, q, limit).combine
    decreases limit
  {
    if limit > 0 && v.lists[q] != [] {
      BodyLinksLast(v, v.lists[q][0], |v.lists[q][0].pushes|);
      TurnLinksLast(HeadServed(v, q), q, limit - 1);
    }
  }

  /**
   A turn is that of the queue linked first. The others keep their order and
   move up by one place; behind them come the queues its bodies have linked
   and, if tasks are left in it, last the queue itself.
   */
  lemma TurnGoesOn(v: Queues, limit: nat)
    requires Sound(v, -1) && limit > 0 && v.combine != []
    ensures v.combine[0] < |v.lists|
    ensures var q, w := v.combine[0], AfterTurn(v, limit);
            && v.combine[1..] <= w.combine
            && (w.lists[q] != [] ==> |w.combine| >= |v.combine| && w.combine[|w.combine| - 1] == q)
            && (w.lists[q] == [] ==> q !in w.combine)
  {
    TakeLinked(v.lists, v.combine);
    var q := v.combine[0];
    TurnLinksLast(v.(combine := v.combine[1..]), q, limit);
    if AfterTurn(v, limit).lists[q] == [] {
      EmptyIsUnlinked(AfterTurn(v, limit).lists, AfterTurn(v, limit).combine, q);
    }
  }

  /**
   No queue is passed over: the one at place `k` of the combine is linked first
   after `k` turns, whatever the tasks push, so the next turn is its own.
   */
  lemma {:induction false} EveryQueueHasItsTurn(v: Queues, limit: nat, k: nat)
    requires Sound(v, -1) && limit > 0 && k < |v.combine|
    ensures v.combine[k..] <= After(v, limit, k).combine && After(v, limit, k).combine[0] == v.combine[k]
  {
    hide Sound, AfterTurn;
    if k > 0 {
      EveryQueueHasItsTurn(v, limit, k - 1);
      var w := After(v, limit, k - 1);
      TurnGoesOn(w, limit);
      assert v.combine[k..] == v.combine[k - 1..][1..];
    }
  }

  // ---------------------------------------------------------------------------
  // Tasks that push nothing
  // ---------------------------------------------------------------------------

  /** The turns a list of `n` tasks takes. */
  function Rounds(n: nat, limit: nat): nat
    requires limit > 0
  {
    if n == 0 then 0 else 1 + Rounds(if n <= limit then 0 else n - limit, limit)
  }

  /** That is, `n` over `limit`, rounded up. */
  lemma {:induction false} RoundsRoundUp(n: nat, limit: nat)
    requires limit > 0
    ensures n <= Rounds(n, limit) * limit < n + limit
  {
    if n > limit {
      RoundsRoundUp(n - limit, limit);
      assert Rounds(n, limit) * limit == Rounds(n - limit, limit) * limit + limit;
    } else if n > 0 {
      assert Rounds(n, limit) == 1;
    }
  }

  function ListRounds(limit: nat): seq<Task> -> nat
    requires limit > 0
  {
    (tasks: seq<Task>) => Rounds(|tasks|, limit)
  }

  /** The sum over all queues. */
  function TurnsOf(lists: seq<seq<Task>>, limit: nat): nat
    requires limit > 0
  {
    Sum(lists, ListRounds(limit))
  }

  ghost predicate Plain(lists: seq<seq<Task>>) {
    forall q, i | 0 <= q < |lists| && 0 <= i < |lists[q]| :: lists[q][i].pushes == []
  }

  lemma {:induction false} PlainTurn(v: Queues, q: nat, limit: nat)
    requires q < |v.lists| && AllFit(v.lists) && Plain(v.lists)
    ensures Turn(v, q, limit) == v.(lists := v.lists[q := v.lists[q][Min(limit, |v.lists[q]|)..]])
    decreases limit
  {
    if limit > 0 && v.lists[q] != [] {
      assert HeadServed(v, q) == v.(lists := v.lists[q := v.lists[q][1..]]);
      PlainTurn(HeadServed(v, q), q, limit - 1);
    }
  }

  /** A turn takes up to `limit` tasks off the queue linked first. */
  lemma PlainTurnLists(v: Queues, limit: nat)
    requires Sound(v, -1) && limit > 0 && Plain(v.lists) && v.combine != []
    ensures v.combine[0] < |v.lists| && v.lists[v.combine[0]] != []
    ensures var q := v.combine[0]; AfterTurn(v, limit).lists == v.lists[q := v.lists[q][Min(limit, |v.lists[q]|)..]]
  {
    hide Linked, AllFit, Plain;
    TakeLinked(v.lists, v.combine);
    PlainTurn(v.(combine := v.combine[1..]), v.combine[0], limit);
  }

  lemma PlainAfterTurn(v: Queues, limit: nat)
    requires Sound(v, -1) && limit > 0 && Plain(v.lists) && v.combine != []
    ensures Plain(AfterTurn(v, limit).lists) && TurnsOf(AfterTurn(v, limit).lists, limit) == TurnsOf(v.lists, limit) - 1
  {
    hide Sound, AfterTurn;
    PlainTurnLists(v, limit);
    var q := v.combine[0];
    SumUpdate(v.lists, q, v.lists[q][Min(limit, |v.lists[q]|)..], ListRounds(limit));
  }

  lemma NoTurnsLeft(v: Queues, limit: nat)
    requires Sound(v, -1) && limit > 0
    ensures v.combine == [] <==> TurnsOf(v.lists, limit) == 0
  {
    if v.combine == [] {
      UnlinkedIsEmpty(v.lists);
      SumZero(v.lists, ListRounds(limit));
    } else {
      TakeLinked(v.lists, v.combine);
      SumMember(v.lists, v.combine[0], ListRounds(limit));
    }
  }

  lemma {:induction false} PlainAfter(v: Queues, limit: nat, n: nat)
    requires Sound(v, -1) && limit > 0 && Plain(v.lists)
    ensures Plain(After(v, limit, n).lists)
    ensures TurnsOf(After(v, limit, n).lists, limit) == if n < TurnsOf(v.lists, limit)
            then TurnsOf(v.lists, limit) - n else 0
  {
    hide Sound, Plain;
    if n > 0 {
      PlainAfter(v, limit, n - 1);
      var w := After(v, limit, n - 1);
      NoTurnsLeft(w, limit);
      if w.combine != [] {
        PlainAfterTurn(w, limit);
      }
    }
  }

  /**
   With tasks that push nothing, the turns needed are the sum over the queues
   of their length over the limit, rounded up.
   */
  lemma PlainDrainsIn(v: Queues, limit: nat)
    requires Sound(v, -1) && limit > 0 && Plain(v.lists)
    ensures DrainsIn(v, limit, TurnsOf(v.lists, limit))
  {
    hide Sound, Plain;
    forall n: nat ensures After(v, limit, n).combine != [] <==> n < TurnsOf(v.lists, limit) {
      PlainAfter(v, limit, n);
      NoTurnsLeft(After(v, limit, n), limit);
    }
  }

  /** The failing input: one queue with one task, and one turn allowed. */
  lemma OneWithNothingLeft()
    ensures var v := Queues([[Task(0, [])]], [0]);
            Sound(v, -1) && ReturnsOne(v, 1, 1) && !NeedsService(v, 1, 1)
  {
    var v := Queues([[Task(0, [])]], [0]);
    assert Sound(v, -1) && Plain(v.lists);
    PlainDrainsIn(v, 1);
    assert v.lists[..0] == [];
    assert TurnsOf(v.lists, 1) == Sum(v.lists[..0], ListRounds(1)) + Rounds(1, 1) == 1;
    ResultExactly(v, 1, 1, 1);
  }
}
