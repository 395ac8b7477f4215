/**
 The service loops of src/queue.c and src/combine.c, on one thread, with tasks
 that push further tasks to any queue while they run.

 QueueProtocol interleaves these loops with other threads and leaves the
 limits open; here the loops themselves are followed, with their limits, their
 counts and what they return.
 */
module SerialService {
  import opened Tally
  import opened Tasks
  import opened SerialModel

  class Loop {
    var lists: seq<seq<Task>>   // the task list of every queue
    var refs: seq<nat>          // the reference of the run, for every queue
    var combine: seq<nat>
    ghost var pushed: seq<seq<nat>>
    ghost var ran: seq<seq<nat>>
    ghost var bodies: nat       // bodies run so far, of all queues
    ghost var turns: seq<nat>   // the queues that were taken off the combine, in order

    /** `busy` is the queue in service, or -1. */
    ghost predicate Valid(busy: int)
      reads this
    {
      AllFit(lists) && Ordered(lists, pushed, ran) && Referenced(lists, refs, busy) && Linked(lists, combine, busy)
    }

    ghost function View(): Queues
      reads this
    {
      Queues(lists, combine)
    }

    /** The bodies still to be run, those of tasks not pushed yet included. */
    ghost function Pending(): nat
      reads this
    {
      Sum(lists, ListWeight())
    }

    constructor (n: nat)
      ensures Valid(-1) && |lists| == n && forall q | 0 <= q < n :: lists[q] == []
    {
      lists := seq(n, _ => []);
      refs := seq(n, _ => 0);
      combine := [];
      pushed, ran, bodies, turns := seq(n, _ => []), seq(n, _ => []), 0, [];
    }

    /** ntt_queue_push_task and, through it, ntt_combine_push. */
    method PushTask(q: nat, task: Task, ghost busy: int)
      requires Valid(busy) && q < |lists| && Fits(task, |lists|) && (q == busy ==> lists[q] != [])
      modifies this`lists, this`refs, this`combine, this`pushed
      ensures Valid(busy) && View() == Pushed(old(View()), q, task)
      ensures lists == old(lists)[q := old(lists[q]) + [task]]
      ensures combine == old(combine) + if old(lists[q]) == [] then [q] else []
      ensures |old(pushed)| == |lists| && pushed == old(pushed)[q := old(pushed[q]) + [task.id]]
      ensures Pending() == old(Pending()) + Weight(task)
    {
      hide Ordered, Linked, Sum;
      PushOrdered(lists, pushed, ran, q, task);
      PushLinked(lists, combine, busy, q, task);
      PushWeighs(lists, q, task);
      var wasEmpty := lists[q] == [];
      lists := lists[q := lists[q] + [task]];
      pushed := pushed[q := pushed[q] + [task.id]];
      if wasEmpty {
        refs := refs[q := refs[q] + 1];
        combine := combine + [q];
      } else {
        assert combine + [] == combine;
      }
    }

    /** The body of the head of `q`, which stays at the head. */
    method RunHead(q: nat)
      requires Valid(q) && q < |lists| && lists[q] != []
      modifies this`lists, this`refs, this`combine, this`pushed
      ensures Valid(q) && |lists| == old(|lists|) && old(lists[q]) <= lists[q] && Grew(old(pushed), pushed)
      ensures old(combine) <= combine
      ensures View() == BodyRun(old(View()), old(lists[q][0]), |old(lists[q][0]).pushes|)
      ensures Pending() == old(Pending()) + Weight(old(lists[q][0])) - 1
    {
      hide Ordered, Referenced, Linked, Sum;
      var task := lists[q][0];
      var k := 0;
      assert Fits(task, |lists|);
      while k < |task.pushes|
        invariant 0 <= k <= |task.pushes|
        invariant Valid(q) && |lists| == old(|lists|) && old(lists[q]) <= lists[q] && Grew(old(pushed), pushed)
        invariant View() == BodyRun(old(View()), task, k) && old(combine) <= combine
        invariant Pending() == old(Pending()) + PushesWeight(task, k)
      {
        ghost var was := pushed;
        PushTask(task.pushes[k].queue, task.pushes[k].task, q);
        GrewMore(old(pushed), was, task.pushes[k].queue, task.pushes[k].task.id);
        k := k + 1;
      }
    }

    /** ntt_queue_next: the head is unlinked, the reference of the run stays. */
    method Next(q: nat)
      requires Valid(q) && q < |lists| && lists[q] != []
      modifies this`lists, this`ran, this`bodies
      ensures Valid(q) && lists == old(lists)[q := old(lists[q][1..])] && combine == old(combine)
      ensures |ran| == old(|ran|) == |lists| && ran[q] == old(ran[q]) + [old(lists[q][0].id)]
      ensures forall p | 0 <= p < |lists| && p != q :: ran[p] == old(ran[p])
      ensures Pending() == old(Pending()) - Weight(old(lists[q][0])) && bodies == old(bodies) + 1
    {
      hide Ordered, Linked, Sum;
      PopOrdered(lists, pushed, ran, q);
      PopLinked(lists, combine, q);
      PopWeighs(lists, q);
      ran := ran[q := ran[q] + [lists[q][0].id]];
      lists := lists[q := lists[q][1..]];
      bodies := bodies + 1;
    }

    /** One pass of the service loops: the body of the head runs, then the head goes. */
    method ServeHead(q: nat)
      requires Valid(q) && q < |lists| && lists[q] != []
      modifies this
      ensures Valid(q) && |lists| == old(|lists|)
      ensures AllFit(old(lists)) && View() == HeadServed(old(View()), q)
      ensures old(combine) <= combine && turns == old(turns) && RanOnly(old(ran), ran, q, 1)
      ensures Grew(old(pushed), pushed) && Grew(old(ran), ran)
      ensures bodies == old(bodies) + 1 && Pending() == old(Pending()) - 1
    {
      hide Ordered, Linked, Referenced, Sum;
      RunHead(q);
      Next(q);
    }

    /** The reference of the run is dropped with the queue served out. */
    method Release(q: nat)
      requires Valid(q) && q < |lists| && lists[q] == []
      modifies this`refs
      ensures Valid(-1)
    {
      hide Ordered, Linked;
      ServiceOver(lists, combine, q);
      refs := refs[q := refs[q] - 1];
    }

    /**
     ntt_queue_svc_with_limit: zero if the limit was reached with tasks left,
     and then the reference of the run is kept; otherwise the number of bodies
     run, and the queue is empty and released.
     */
    method SvcWithLimit(q: nat, limit: nat) returns (cnt: nat)
      requires Valid(q) && q < |lists| && lists[q] != [] && limit > 0
      modifies this
      ensures |lists| == old(|lists|) && bodies + Pending() == old(bodies + Pending())
      ensures AllFit(old(lists)) && View() == Turn(old(View()), q, limit)
      ensures old(combine) <= combine && turns == old(turns) && RanOnly(old(ran), ran, q, bodies - old(bodies))
      ensures old(bodies) < bodies <= old(bodies) + limit && Grew(old(pushed), pushed) && Grew(old(ran), ran)
      ensures cnt == 0 ==> Valid(q) && lists[q] != [] && bodies == old(bodies) + limit
      ensures cnt > 0 ==> Valid(-1) && lists[q] == [] && bodies == old(bodies) + cnt
    {
      hide Ordered, Linked, Referenced, AllFit, Turn, HeadServed, Sum, RanOnly, Grew;
      OrderedSizes(lists, pushed, ran);
      RanNone(ran, q);
      RanNone(pushed, q);
      cnt := 0;
      var done := false;
      while !done
        invariant Valid(q) && |lists| == old(|lists|) && bodies + Pending() == old(bodies + Pending())
        invariant !done ==> lists[q] != [] && cnt < limit && bodies == old(bodies) + cnt
        invariant Turn(old(View()), q, limit) == if done then View() else Turn(View(), q, limit - cnt)
        invariant done ==> old(bodies) < bodies <= old(bodies) + limit
        invariant Grew(old(pushed), pushed) && Grew(old(ran), ran)
        invariant old(combine) <= combine && turns == old(turns)
        invariant old(bodies) <= bodies && RanOnly(old(ran), ran, q, bodies - old(bodies))
        invariant done && lists[q] == [] ==> cnt > 0 && bodies == old(bodies) + cnt
        invariant done && lists[q] != [] ==> cnt == 0 && bodies == old(bodies) + limit
        decreases !done, limit - cnt
      {
        ghost var ran0, pushed0, bodies0 := ran, pushed, bodies;
        TurnServesHead(View(), q, limit - cnt);
        ServeHead(q);
        RanMore(old(ran), ran0, ran, q, bodies0 - old(bodies), 1);
        GrewOn(old(ran), ran0, ran);
        GrewOn(old(pushed), pushed0, pushed);
        cnt := cnt + 1;
        if cnt == limit || lists[q] == [] {
          TurnIsOver(View(), q, limit - cnt);
        }
        if cnt == limit {
          if lists[q] != [] {
            cnt := 0;
          }
          done := true;
        } else {
          done := lists[q] == [];
        }
      }
      if cnt != 0 {
        Release(q);
      }
    }

    /** ntt_queue_svc: the queue is served out and released. */
    method Svc(q: nat)
      requires Valid(q) && q < |lists| && lists[q] != []
      modifies this
      ensures |lists| == old(|lists|) && bodies + Pending() == old(bodies + Pending()) && bodies > old(bodies)
      ensures Valid(-1) && lists[q] == [] && Grew(old(pushed), pushed) && Grew(old(ran), ran)
      ensures old(combine) <= combine && turns == old(turns) && RanOnly(old(ran), ran, q, bodies - old(bodies))
    {
      hide Ordered, Linked, AllFit, HeadServed, Sum;
      ServeHead(q);
      while lists[q] != []
        invariant Valid(q) && |lists| == old(|lists|)
        invariant bodies + Pending() == old(bodies + Pending()) && bodies > old(bodies)
        invariant Grew(old(pushed), pushed) && Grew(old(ran), ran)
        invariant old(combine) <= combine && turns == old(turns) && RanOnly(old(ran), ran, q, bodies - old(bodies))
        decreases Pending()
      {
        ServeHead(q);
      }
      Release(q);
    }

    /** ntt_combine_try_take. */
    method TryTake() returns (found: bool, q: nat)
      requires Valid(-1)
      modifies this`combine, this`turns
      ensures turns == old(turns) + if found then [q] else []
      ensures found <==> old(combine) != []
      ensures found ==>
                q == old(combine[0]) && combine == old(combine[1..]) && q < |lists| && lists[q] != [] && Valid(q)
      ensures !found ==> combine == [] && Valid(-1) && forall p | 0 <= p < |lists| :: lists[p] == []
      ensures !found ==> Pending() == 0
    {
      hide Ordered, Linked, Sum;
      if combine == [] {
        UnlinkedIsEmpty(lists);
        return false, 0;
      }
      TakeLinked(lists, combine);
      found, q := true, combine[0];
      combine := combine[1..];
      turns := turns + [q];
    }

    /**
     ntt_combine_svc: every task pushed is run, and every task those push, each
     once and in the order its queue received it.
     */
    method CombineSvc()
      requires Valid(-1)
      modifies this
      ensures Valid(-1) && |lists| == old(|lists|) && combine == []
      ensures forall q | 0 <= q < |lists| :: lists[q] == [] && pushed[q] == ran[q] && refs[q] == 0
      ensures bodies == old(bodies) + old(Pending()) && Grew(old(pushed), pushed) && Grew(old(ran), ran)
      ensures old(turns) + old(combine) <= turns
    {
      hide Linked, Sum, RanOnly;
      while true
        invariant Valid(-1) && |lists| == old(|lists|) && bodies + Pending() == old(bodies + Pending())
        invariant Grew(old(pushed), pushed) && Grew(old(ran), ran)
        invariant old(turns) + old(combine) <= turns + combine
        decreases Pending()
      {
        ghost var was := combine;
        var found, q := TryTake();
        assert found ==> was == [q] + combine;
        if !found {
          break;
        }
        Svc(q);
      }
    }

    /** One turn of ntt_combine_svc_with_limits: the queue linked first, if there is one. */
    method TakeTurn(limit: nat) returns (found: bool)
      requires Valid(-1) && limit > 0
      modifies this
      ensures Valid(-1) && |lists| == old(|lists|) && bodies + Pending() == old(bodies + Pending())
      ensures Sound(old(View()), -1) && View() == AfterTurn(old(View()), limit)
      ensures found <==> old(combine) != []
      ensures turns == old(turns) + if found then [old(combine[0])] else []
      ensures found ==>
                var q := old(combine[0]);
                && q < |lists| && RanOnly(old(ran), ran, q, bodies - old(bodies))
                && old(combine[1..]) <= combine
                && (lists[q] != [] ==>
                      bodies == old(bodies) + limit && |combine| >= |old(combine)| && combine[|combine| - 1] == q)
                && (lists[q] == [] ==> q !in combine)
      ensures !found ==> combine == [] && (forall q | 0 <= q < |lists| :: lists[q] == []) && bodies == old(bodies)
      ensures found ==> old(bodies) < bodies <= old(bodies) + limit
      ensures Grew(old(pushed), pushed) && Grew(old(ran), ran)
    {
      hide Ordered, Linked, AllFit, Turn, Sum, RanOnly;
      var q;
      found, q := TryTake();
      if !found {
        return;
      }
      var served := SvcWithLimit(q, limit);
      if served == 0 {
        ServiceOver(lists, combine, q);
        combine := combine + [q];
      } else {
        EmptyIsUnlinked(lists, combine, q);
      }
    }

    /**
     ntt_combine_svc_with_limits makes the first `loopLimit` turns, and fewer
     only if nothing is left before. True says that all of them were made, that
     is, that something was left before the last of them; what is left after it
     is in the combine. The queues linked at the start have their turns in the
     order they are linked in, before any queue has a second one.
     */
    method CombineSvcWithLimits(loopLimit: nat, queueLimit: nat) returns (again: bool)
      requires Valid(-1) && loopLimit > 0 && queueLimit > 0
      modifies this
      ensures Valid(-1) && |lists| == old(|lists|) && bodies + Pending() == old(bodies + Pending())
      ensures Sound(old(View()), -1) && View() == After(old(View()), queueLimit, loopLimit)
      ensures again <==> After(old(View()), queueLimit, loopLimit - 1).combine != []
      ensures !again ==> combine == [] && forall q | 0 <= q < |lists| :: lists[q] == []
      ensures again ==> old(bodies) + loopLimit <= bodies
      ensures old(turns) + old(combine)[..Min(loopLimit, |old(combine)|)] <= turns
      ensures |turns| <= |old(turns)| + loopLimit && (again ==> |turns| == |old(turns)| + loopLimit)
      ensures bodies <= old(bodies) + loopLimit * queueLimit && Grew(old(pushed), pushed) && Grew(old(ran), ran)
    {
      hide Ordered, Linked, Referenced, AllFit, AfterTurn, Sum;
      var cnt := 0;
      while cnt < loopLimit
        invariant cnt <= loopLimit && Valid(-1) && |lists| == old(|lists|)
                  && bodies + Pending() == old(bodies + Pending())
        invariant View() == After(old(View()), queueLimit, cnt)
        invariant cnt > 0 ==> After(old(View()), queueLimit, cnt - 1).combine != []
        invariant old(bodies) + cnt <= bodies <= old(bodies) + cnt * queueLimit
        invariant Grew(old(pushed), pushed) && Grew(old(ran), ran)
        invariant |turns| == |old(turns)| + cnt && old(turns) + old(combine) <= turns + combine
      {
        ghost var was := combine;
        TurnsAddUp(cnt, loopLimit, queueLimit);
        var found := TakeTurn(queueLimit);
        assert found ==> was == [was[0]] + was[1..];
        if !found {
          NothingComesOfNothing(old(View()), queueLimit, cnt, loopLimit - 1);
          NothingComesOfNothing(old(View()), queueLimit, cnt, loopLimit);
          return false;
        }
        cnt := cnt + 1;
      }
      TurnsWereLinked(old(turns), old(combine), turns, combine, loopLimit);
      return true;
    }
  }

  lemma TurnsWereLinked(before: seq<nat>, linked: seq<nat>, turns: seq<nat>, left: seq<nat>, n: nat)
    requires before + linked <= turns + left && |turns| == |before| + n
    ensures before + linked[..Min(n, |linked|)] <= turns
  {
    var some := before + linked[..Min(n, |linked|)];
    forall i | 0 <= i < |some| ensures some[i] == turns[i] {
      assert some[i] == (before + linked)[i] == (turns + left)[i];
    }
  }

  lemma TurnsAddUp(cnt: nat, turns: nat, limit: nat)
    requires cnt < turns
    ensures (cnt + 1) * limit == cnt * limit + limit && cnt * limit <= turns * limit
  {
    assert turns * limit == cnt * limit + (turns - cnt) * limit;
  }
}
