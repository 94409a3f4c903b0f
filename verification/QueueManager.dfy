/**
  The set of partition queues a consumer has detached (c_src/queuemanager.cc). What it asks of
  librdkafka is recorded call by call. Every method runs under the manager's lock.
 */
module QueueManager {
  /** rd_kafka_t* and rd_kafka_queue_t*; 0 is NULL. */
  type Addr = nat

  const NULL: Addr := 0

  datatype Call =
    | Detach(queue: Addr)                // rd_kafka_queue_forward(queue, NULL)
    | GetMainQueue(rk: Addr)             // rd_kafka_queue_get_consumer(rk)
    | ForwardToMain(queue: Addr)
    | DestroyMainQueueRef
    | Destroy(queue: Addr)               // rd_kafka_queue_destroy(queue)

  /** Forwarding one queue back; the queue itself lives on. */
  function ForwardCalls(rk: Addr, queue: Addr): seq<Call> {
    [GetMainQueue(rk), ForwardToMain(queue), DestroyMainQueueRef]
  }

  function RemoveCalls(rk: Addr, queues: set<Addr>, queue: Addr): seq<Call> {
    if queue in queues then ForwardCalls(rk, queue) + [Destroy(queue)] else []
  }

  function ClearCalls(rk: Addr, order: seq<Addr>): seq<Call> {
    if order == [] then [] else ClearCalls(rk, order[..|order| - 1]) + ForwardCalls(rk, order[|order| - 1])
  }

  /** `order` lists the members of the set, each once. */
  ghost predicate Lists(order: seq<Addr>, queues: set<Addr>) {
    && (forall q :: q in order <==> q in queues)
    && forall i, j :: 0 <= i < j < |order| ==> order[i] != order[j]
  }

  function Destroyed(calls: seq<Call>): (r: seq<Addr>)
    ensures |r| <= |calls|
  {
    if calls == [] then []
    else (if calls[0].Destroy? then [calls[0].queue] else []) + Destroyed(calls[1..])
  }

  lemma {:induction false} DestroyedAppend(a: seq<Call>, b: seq<Call>)
    ensures Destroyed(a + b) == Destroyed(a) + Destroyed(b)
  {
    if a == [] {
      assert a + b == b;
    } else {
      assert (a + b)[0] == a[0] && (a + b)[1..] == a[1..] + b;
      DestroyedAppend(a[1..], b);
    }
  }

  lemma ForwardDestroysNothing(rk: Addr, queue: Addr)
    ensures Destroyed(ForwardCalls(rk, queue)) == []
  {
    var calls := ForwardCalls(rk, queue);
    assert calls[1..] == [ForwardToMain(queue), DestroyMainQueueRef] && calls[1..][1..] == [DestroyMainQueueRef];
    assert Destroyed([DestroyMainQueueRef]) == [] + Destroyed([]);
    assert Destroyed(calls[1..]) == [] + Destroyed(calls[1..][1..]);
  }

  /** Theorem. Removing destroys the queue exactly when the set has it; clearing destroys none. */
  lemma {:induction false} WhatIsDestroyed(rk: Addr, queues: set<Addr>, queue: Addr, order: seq<Addr>)
    ensures Destroyed(RemoveCalls(rk, queues, queue)) == if queue in queues then [queue] else []
    ensures Destroyed(ClearCalls(rk, order)) == []
    decreases |order|
  {
    ForwardDestroysNothing(rk, queue);
    DestroyedAppend(ForwardCalls(rk, queue), [Destroy(queue)]);
    assert [Destroy(queue)][1..] == [];
    if order == [] {
    } else {
      WhatIsDestroyed(rk, queues, queue, order[..|order| - 1]);
      ForwardDestroysNothing(rk, order[|order| - 1]);
      DestroyedAppend(ClearCalls(rk, order[..|order| - 1]), ForwardCalls(rk, order[|order| - 1]));
    }
  }

  /** Theorem. A queue that was cleared away or never added is left alone by a later remove,
      and so is NULL: nothing at all is asked of librdkafka. */
  lemma RemoveTwice(rk: Addr, queues: set<Addr>, queue: Addr)
    ensures RemoveCalls(rk, queues - {queue}, queue) == RemoveCalls(rk, {}, queue) == []
  {
  }

  // --------------------------------------------------------- what librdkafka may be asked

  /** What librdkafka has: open handles, queues not destroyed, those of them that the caller may
      destroy, those forwarded to a main queue, and references to the main queue handed out. */
  datatype World = World(handles: set<Addr>, live: set<Addr>, mine: set<Addr>, toMain: set<Addr>, refs: nat)

  predicate Admits(w: World, call: Call) {
    match call
    case Detach(q) => q in w.live
    case GetMainQueue(rk) => rk in w.handles
    case ForwardToMain(q) => q in w.live && w.refs > 0
    case DestroyMainQueueRef => w.refs > 0
    case Destroy(q) => q in w.live && q in w.mine
  }

  function Next(w: World, call: Call): World
    requires Admits(w, call)
  {
    match call
    case Detach(q) => w.(toMain := w.toMain - {q})
    case GetMainQueue(_) => w.(refs := w.refs + 1)
    case ForwardToMain(q) => w.(toMain := w.toMain + {q})
    case DestroyMainQueueRef => w.(refs := w.refs - 1)
    case Destroy(q) => w.(live := w.live - {q}, mine := w.mine - {q}, toMain := w.toMain - {q})
  }

  /** Each call may be made in the world the calls before it have left. */
  predicate Admissible(w: World, calls: seq<Call>)
    decreases |calls|
  {
    calls == [] || (Admits(w, calls[0]) && Admissible(Next(w, calls[0]), calls[1..]))
  }

  function WorldAfter(w: World, calls: seq<Call>): World
    requires Admissible(w, calls)
    decreases |calls|
  {
    if calls == [] then w else WorldAfter(Next(w, calls[0]), calls[1..])
  }

  lemma {:induction false} AdmissibleAppend(w: World, a: seq<Call>, b: seq<Call>)
    ensures Admissible(w, a + b) <==> Admissible(w, a) && Admissible(WorldAfter(w, a), b)
    ensures Admissible(w, a + b) ==> WorldAfter(w, a + b) == WorldAfter(WorldAfter(w, a), b)
    decreases |a|
  {
    if a == [] {
      assert a + b == b;
    } else {
      assert (a + b)[0] == a[0] && (a + b)[1..] == a[1..] + b;
      if Admits(w, a[0]) { AdmissibleAppend(Next(w, a[0]), a[1..], b); }
    }
  }

  lemma OneCall(w: World, call: Call)
    ensures Admissible(w, [call]) <==> Admits(w, call)
    ensures Admissible(w, [call]) ==> WorldAfter(w, [call]) == Next(w, call)
  {
    assert [call][1..] == [];
  }

  lemma ForwardIsAdmissible(w: World, rk: Addr, queue: Addr)
    ensures Admissible(w, ForwardCalls(rk, queue)) <==> rk in w.handles && queue in w.live
    ensures Admissible(w, ForwardCalls(rk, queue)) ==>
      WorldAfter(w, ForwardCalls(rk, queue)) == w.(toMain := w.toMain + {queue})
  {
    var calls := ForwardCalls(rk, queue);
    assert calls[1..] == [ForwardToMain(queue), DestroyMainQueueRef] && calls[1..][1..] == [DestroyMainQueueRef];
    if rk in w.handles && queue in w.live { OneCall(Next(Next(w, calls[0]), calls[1]), DestroyMainQueueRef); }
  }

  /** Theorem. Taking a queue out of the set makes only calls that may be made where each of them
      comes, if and only if the handle is open and the queue is there and its owner's to destroy;
      it leaves the queue destroyed and no reference to the main queue behind. */
  lemma RemoveIsAdmissible(w: World, rk: Addr, queues: set<Addr>, queue: Addr)
    ensures var calls := RemoveCalls(rk, queues, queue);
      && (Admissible(w, calls) <==> (queue in queues ==> rk in w.handles && queue in w.live && queue in w.mine))
      && (Admissible(w, calls) ==>
            WorldAfter(w, calls) ==
              if queue !in queues then w
              else w.(live := w.live - {queue}, mine := w.mine - {queue}, toMain := w.toMain - {queue}))
  {
    if queue in queues {
      ForwardIsAdmissible(w, rk, queue);
      AdmissibleAppend(w, ForwardCalls(rk, queue), [Destroy(queue)]);
      var u := w.(toMain := w.toMain + {queue});
      OneCall(u, Destroy(queue));
      assert u.toMain - {queue} == w.toMain - {queue};
    }
  }

  /** Theorem. So does clearing the set, if and only if it is empty or the handle is open and every
      queue is there; it leaves each of them forwarded, none destroyed and no reference behind. */
  lemma {:induction false} ClearIsAdmissible(w: World, rk: Addr, order: seq<Addr>)
    ensures var calls := ClearCalls(rk, order);
      && (Admissible(w, calls) <==> (order != [] ==> rk in w.handles) && forall q :: q in order ==> q in w.live)
      && (Admissible(w, calls) ==> WorldAfter(w, calls) == w.(toMain := w.toMain + set q | q in order))
    decreases |order|
  {
    if order == [] {
      assert w.toMain + (set q | q in order) == w.toMain;
    } else {
      var rest, last := order[..|order| - 1], order[|order| - 1];
      ClearIsAdmissible(w, rk, rest);
      AdmissibleAppend(w, ClearCalls(rk, rest), ForwardCalls(rk, last));
      var u := w.(toMain := w.toMain + set q | q in rest);
      ForwardIsAdmissible(u, rk, last);
      assert order == rest + [last];
      assert u.toMain + {last} == w.toMain + set q | q in order;
    }
  }

  /** Call number `i` forwards the queue to the main queue, between getting a reference to that and
      giving it back, and no other call forwards it. */
  ghost predicate ForwardedOnce(calls: seq<Call>, rk: Addr, queue: Addr, i: int) {
    && 0 < i < |calls| - 1
    && calls[i - 1] == GetMainQueue(rk) && calls[i] == ForwardToMain(queue) && calls[i + 1] == DestroyMainQueueRef
    && forall j :: 0 <= j < |calls| && calls[j] == ForwardToMain(queue) ==> j == i
  }

  /** Theorem. Taking a queue out of the set forwards it exactly once, and destroys it last of all. */
  lemma RemoveForwardsOnce(rk: Addr, queues: set<Addr>, queue: Addr)
    requires queue in queues
    ensures var calls := RemoveCalls(rk, queues, queue);
      && ForwardedOnce(calls, rk, queue, 1)
      && calls[|calls| - 1] == Destroy(queue) && forall i :: 0 <= i < |calls| - 1 ==> !calls[i].Destroy?
  {
  }

  lemma {:induction false} ClearCallsAt(rk: Addr, order: seq<Addr>, k: nat)
    requires k < |order|
    ensures |ClearCalls(rk, order)| == 3 * |order|
    ensures var calls := ClearCalls(rk, order);
      && calls[3 * k] == GetMainQueue(rk) && calls[3 * k + 1] == ForwardToMain(order[k])
      && calls[3 * k + 2] == DestroyMainQueueRef
    decreases |order|
  {
    var rest := order[..|order| - 1];
    if rest == [] {
    } else {
      ClearCallsAt(rk, rest, if k < |rest| then k else 0);
    }
  }

  /** Theorem. Clearing the set forwards each of its queues exactly once, and destroys none. */
  lemma ClearForwardsOnce(rk: Addr, queues: set<Addr>, order: seq<Addr>, queue: Addr)
    requires Lists(order, queues) && queue in queues
    ensures var calls := ClearCalls(rk, order);
      (exists i :: ForwardedOnce(calls, rk, queue, i)) && forall call :: call in calls ==> !call.Destroy?
  {
    var calls := ClearCalls(rk, order);
    var k :| 0 <= k < |order| && order[k] == queue;
    ClearCallsAt(rk, order, k);
    forall j | 0 <= j < |calls| ensures !calls[j].Destroy? && (calls[j] == ForwardToMain(queue) ==> j == 3 * k + 1) {
      ClearCallsAt(rk, order, j / 3);
    }
    assert ForwardedOnce(calls, rk, queue, 3 * k + 1);
  }

  class QueueManager {
    const rk: Addr
    var queues: set<Addr>
    ghost var calls: seq<Call>

    constructor (rk: Addr)
      ensures this.rk == rk && queues == {} && calls == []
    {
      this.rk, queues, calls := rk, {}, [];
    }

    /** The assertion in the code is the precondition. */
    method Add(queue: Addr)
      requires queue !in queues
      modifies this
      ensures queues == old(queues) + {queue} && calls == old(calls) + [Detach(queue)]
    {
      calls := calls + [Detach(queue)];
      queues := queues + {queue};
    }

    method Remove(queue: Addr) returns (found: bool)
      modifies this
      ensures found == (queue in old(queues)) && queues == old(queues) - {queue}
      ensures calls == old(calls) + RemoveCalls(rk, old(queues), queue)
      ensures found ==>
        calls == old(calls) + [GetMainQueue(rk), ForwardToMain(queue), DestroyMainQueueRef, Destroy(queue)]
    {
      if queue !in queues {
        return false;
      }
      calls := calls + [GetMainQueue(rk), ForwardToMain(queue), DestroyMainQueueRef, Destroy(queue)];
      queues := queues - {queue};
      return true;
    }

    /** In whatever order the hash set has them. */
    method ClearAll()
      modifies this
      ensures queues == {}
      ensures exists order :: Lists(order, old(queues)) && calls == old(calls) + ClearCalls(rk, order)
    {
      var todo := queues;
      ghost var order: seq<Addr> := [];
      while todo != {}
        invariant todo <= queues == old(queues)
        invariant Lists(order, queues - todo) && calls == old(calls) + ClearCalls(rk, order)
        decreases |todo|
      {
        var q :| q in todo;
        calls := calls + [GetMainQueue(rk), ForwardToMain(q), DestroyMainQueueRef];
        assert (order + [q])[..|order|] == order;
        assert forall x :: x in order + [q] <==> x in order || x == q;
        order := order + [q];
        todo := todo - {q};
      }
      assert queues - todo == queues;
      queues := {};
    }
  }
}
