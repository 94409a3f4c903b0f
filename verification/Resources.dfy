/**
  The functions of c_src/exrdkafka_consumer.cc and c_src/exrdkafka_producer.cc that create, clean
  up and free consumers, producers and queues, as they run when no other thread comes between
  their statements. The view of each object is its record in module HandleLifetime, and what a
  method does to it is what module HandleStatements proves of the steps of that machine.
 */
module Resources {
  import opened Prelude
  import Q = QueueManager
  import D = Dispatcher
  import L = HandleLifetime
  import S = HandleStatements

  /** An element of rd_kafka_topic_partition_list_t. */
  datatype Partition = Partition(topic: string, partition: int, offset: int)

  datatype AssignItem = AssignItem(topic: string, partition: int, offset: int, queue: EnifQueue)

  datatype Sent = AssignPartitions(items: seq<AssignItem>) | RevokePartitions(names: seq<(string, int)>) | ClientStopped

  /** What librdkafka is asked to do with a handle, besides what the queue manager asks. */
  datatype Asked = Assign(partitions: Option<seq<Partition>>) | Close | Flush | Destroy

  /** closed_future. The task it stands for has run at the latest when get() returns. */
  datatype Future = NotStarted | Started | Done

  function NamesOf(partitions: seq<Partition>): (r: seq<(string, int)>)
    ensures |r| == |partitions| && forall i :: 0 <= i < |r| ==> r[i] == (partitions[i].topic, partitions[i].partition)
  {
    seq(|partitions|, i requires 0 <= i < |partitions| => (partitions[i].topic, partitions[i].partition))
  }

  function SetOf(handles: seq<Q.Addr>): set<Q.Addr> {
    set q | q in handles
  }

  /** Handles that librdkafka has just made: no two alike, none NULL, none in the set. */
  ghost predicate New(handles: seq<Q.Addr>, queues: set<Q.Addr>) {
    && (forall q :: q in handles ==> q != Q.NULL && q !in queues)
    && forall i, j :: 0 <= i < j < |handles| ==> handles[i] != handles[j]
  }

  /** One item per partition, in order, each with the queue made for it. */
  ghost predicate Describes(items: seq<AssignItem>, partitions: seq<Partition>, handles: seq<Q.Addr>,
                            consumer: EnifConsumer)
    reads set item | item in items :: item.queue
  {
    && |items| == |partitions| == |handles|
    && forall i :: 0 <= i < |items| ==>
         && items[i].topic == partitions[i].topic && items[i].partition == partitions[i].partition
         && items[i].offset == partitions[i].offset
         && items[i].queue.consumer == consumer && items[i].queue.queue == handles[i]
  }

  class EnifQueue {
    var queue: Q.Addr
    const consumer: EnifConsumer

    ghost function View(client: L.Id, held: bool): L.QRes
      reads this
    {
      L.QRes(client, queue, held, false, false)
    }

    constructor (queue: Q.Addr, consumer: EnifConsumer)
      ensures this.queue == queue && this.consumer == consumer
    {
      this.queue, this.consumer := queue, consumer;
    }
  }

  class EnifConsumer {
    var kf: Q.Addr
    var running: bool
    var refs: nat
    var closedFuture: Future
    const qm: Q.QueueManager
    ghost var stage: L.Stage
    ghost var asked: seq<Asked>
    ghost var sent: seq<Sent>

    ghost function View(held: bool): L.Client
      reads this, qm
    {
      L.Client(L.Consumer, qm.rk, kf, running, qm.queues, refs, held, stage)
    }

    ghost predicate Valid()
      reads this, qm
    {
      match stage
      case Active => closedFuture == NotStarted && kf == qm.rk != Q.NULL && running
      case Closing => closedFuture == Started && kf == qm.rk != Q.NULL && !running
      case Finished => closedFuture == Done && kf == Q.NULL && qm.queues == {} && !running
      case Freed => kf == Q.NULL && qm.queues == {} && !running
      case _ => false
    }

    /** A client that is watched. */
    constructor (rk: Q.Addr)
      requires rk != Q.NULL
      ensures Valid() && fresh(qm) && qm.calls == [] && asked == [] && sent == []
      ensures forall held :: View(held) == L.Client(L.Consumer, rk, rk, true, {}, 1, held, L.Active)
    {
      kf, running, refs, closedFuture := rk, true, 1, NotStarted;
      stage, asked, sent := L.Active, [], [];
      qm := new Q.QueueManager(rk);
    }

    /** enif_new_queue. `handle` is what rd_kafka_queue_get_partition returns. */
    method NewQueue(handle: Q.Addr) returns (q: EnifQueue)
      requires Valid() && kf != Q.NULL && New([handle], qm.queues)
      modifies this`refs, qm
      ensures Valid() && fresh(q) && q.consumer == this
      ensures forall held :: View(held) == S.WithQueue(old(View(held)), handle)
      ensures forall client :: q.View(client, true) == L.QRes(client, handle, true, false, false)
      ensures qm.calls == old(qm.calls) + [Q.Detach(handle)]
    {
      assert handle in [handle];
      refs := refs + 1;
      qm.Add(handle);
      q := new EnifQueue(handle, this);
    }

    /** partition_list_to_nif for an assignment: one detached queue each, in order. */
    method AssignList(partitions: seq<Partition>, handles: seq<Q.Addr>) returns (items: seq<AssignItem>)
      requires Valid() && kf != Q.NULL && |handles| == |partitions| && New(handles, qm.queues)
      modifies this`refs, qm
      ensures Valid() && Describes(items, partitions, handles, this)
      ensures forall item :: item in items ==> fresh(item.queue)
      ensures refs == old(refs) + |partitions| && qm.queues == old(qm.queues) + SetOf(handles)
    {
      items := [];
      for i := 0 to |partitions|
        invariant Valid() && |items| == i
        invariant Describes(items, partitions[..i], handles[..i], this)
        invariant forall item :: item in items ==> fresh(item.queue)
        invariant refs == old(refs) + i && qm.queues == old(qm.queues) + SetOf(handles[..i])
      {
        assert handles[i] !in SetOf(handles[..i]);
        assert SetOf(handles[..i + 1]) == SetOf(handles[..i]) + {handles[i]};
        var queue := NewQueue(handles[i]);
        assert queue.View(0, true).queue == handles[i] && View(true).refs == refs && View(true).qset == qm.queues;
        items := items + [AssignItem(partitions[i].topic, partitions[i].partition, partitions[i].offset, queue)];
      }
      assert partitions[..|partitions|] == partitions && handles[..|partitions|] == handles;
    }

    /** assign_partitions: the assignment, then the queues, then the message; or, once cleanup
        has begun, nothing but giving up the assignment. */
    method OnAssign(partitions: seq<Partition>, handles: seq<Q.Addr>)
      requires Valid() && kf != Q.NULL && |handles| == |partitions| && New(handles, qm.queues)
      modifies this`refs, this`asked, this`sent, qm
      ensures Valid()
      ensures !running ==>
        asked == old(asked) + [Assign(None)] && sent == old(sent) && forall held :: View(held) == old(View(held))
      ensures running ==>
        && asked == old(asked) + [Assign(Some(partitions))] && refs == old(refs) + |partitions|
        && qm.queues == old(qm.queues) + SetOf(handles)
        && exists items :: sent == old(sent) + [AssignPartitions(items)] && Describes(items, partitions, handles, this)
    {
      if !running {
        asked := asked + [Assign(None)];
        return;
      }
      asked := asked + [Assign(Some(partitions))];
      var items := AssignList(partitions, handles);
      sent := sent + [AssignPartitions(items)];
    }

    /** revoke_partitions: only a message while the client runs. */
    method OnRevoke(partitions: seq<Partition>)
      modifies this`asked, this`sent
      ensures asked == if running then old(asked) else old(asked) + [Assign(None)]
      ensures sent == if running then old(sent) + [RevokePartitions(NamesOf(partitions))] else old(sent)
    {
      if !running {
        asked := asked + [Assign(None)];
        return;
      }
      var items: seq<(string, int)> := [];
      for i := 0 to |partitions|
        invariant |items| == i && forall j :: 0 <= j < i ==> items[j] == (partitions[j].topic, partitions[j].partition)
      {
        items := items + [(partitions[i].topic, partitions[i].partition)];
      }
      assert items == NamesOf(partitions);
      sent := sent + [RevokePartitions(items)];
    }

    method Release()
      requires refs > 0
      modifies this`refs
      ensures refs == old(refs) - 1
    {
      refs := refs - 1;
    }

    /** cleanup_consumer. */
    method CleanupConsumer(stopFeedback: bool)
      requires kf != Q.NULL && !running
      modifies this`kf, this`closedFuture, this`stage, this`asked, this`sent, qm
      ensures Valid() && stage == L.Finished && forall held :: View(held) == S.CleanedUp(old(View(held)))
      ensures exists order :: Q.Lists(order, old(qm.queues)) && qm.calls == old(qm.calls) + Q.ClearCalls(qm.rk, order)
      ensures asked == old(asked) + [Close, Destroy]
      ensures sent == old(sent) + if stopFeedback then [ClientStopped] else []
    {
      qm.ClearAll();
      asked := asked + [Close];
      asked := asked + [Destroy];
      kf := Q.NULL;
      if stopFeedback {
        sent := sent + [ClientStopped];
      }
      closedFuture, stage := Done, L.Finished;
    }

    /** enif_consumer_cleanup; the task it starts is CleanupConsumer. */
    method ConsumerCleanup(notifier: D.QueueCallbacksDispatcher)
      requires Valid() && stage == L.Active
      modifies this`running, this`closedFuture, this`stage, notifier
      ensures Valid() && forall held :: View(held) == S.CleanupBegun(old(View(held)))
      ensures notifier.objects == old(notifier.objects) - {qm.rk}
      ensures notifier.events == old(notifier.events) + if qm.rk in old(notifier.objects) then [D.NULL_HANDLE] else []
    {
      running := false;
      var found := notifier.Remove(kf);
      closedFuture, stage := Started, L.Closing;
    }

    /** closed_future->get(). */
    method Await()
      requires Valid() && (stage == L.Closing || stage == L.Finished)
      modifies this`kf, this`closedFuture, this`stage, this`asked, this`sent, qm
      ensures Valid() && stage == L.Finished && forall held :: View(held) == S.CleanedUp(old(View(held)))
      ensures asked == old(asked) + if old(stage) == L.Closing then [Close, Destroy] else []
    {
      if closedFuture == Started {
        CleanupConsumer(true);
      }
    }

    /** enif_consumer_free: on every path the handle is closed and destroyed once over the life of
        the client, the set is empty when the queue manager is deleted, and the handle is out of the
        dispatcher's table. The result is the assertion in the queue manager's destructor. */
    method ConsumerFree(notifier: D.QueueCallbacksDispatcher) returns (noQueuesLeft: bool)
      requires Valid() && stage != L.Freed
      modifies this`kf, this`running, this`closedFuture, this`stage, this`asked, this`sent, qm, notifier
      ensures Valid() && noQueuesLeft
      ensures forall held :: View(held) == S.Ended(S.CleanedUp(S.CleanupBegun(old(View(held)))))
      ensures asked == old(asked) + if old(stage) == L.Finished then [] else [Close, Destroy]
      ensures notifier.objects ==
        if old(stage) == L.Active then old(notifier.objects) - {qm.rk} else old(notifier.objects)
    {
      running := false;
      if closedFuture != NotStarted {
        Await();
      } else if kf != Q.NULL {
        var found := notifier.Remove(kf);
        CleanupConsumer(false);
      }
      noQueuesLeft := qm.queues == {};
      stage := L.Freed;
    }
  }

  /** enif_consumer_queue_cleanup. A second call finds NULL and asks librdkafka nothing. */
  method QueueCleanup(q: EnifQueue)
    modifies q, q.consumer.qm
    ensures forall client, held :: q.View(client, held) == old(q.View(client, held)).(queue := Q.NULL)
    ensures forall held :: q.consumer.View(held) == S.WithoutQueue(old(q.consumer.View(held)), old(q.queue))
    ensures q.consumer.qm.calls == old(q.consumer.qm.calls) +
      Q.RemoveCalls(q.consumer.qm.rk, old(q.consumer.qm.queues), old(q.queue))
  {
    var found := q.consumer.qm.Remove(q.queue);
    q.queue := Q.NULL;
  }

  /** enif_queue_free. */
  method QueueFree(q: EnifQueue)
    requires q.consumer.refs > 0
    modifies q.consumer`refs, q.consumer.qm
    ensures forall held ::
      var k := old(q.consumer.View(held));
      q.consumer.View(held) == S.Released(if q.queue != Q.NULL then S.WithoutQueue(k, q.queue) else k)
    ensures q.consumer.qm.calls == old(q.consumer.qm.calls) +
      if q.queue != Q.NULL then Q.RemoveCalls(q.consumer.qm.rk, old(q.consumer.qm.queues), q.queue) else []
  {
    if q.queue != Q.NULL {
      var found := q.consumer.qm.Remove(q.queue);
    } else {
      assert q.consumer.qm.calls + [] == q.consumer.qm.calls;
    }
    q.consumer.Release();
  }

  /** Cleaning a queue up and then freeing it destroys it once, if it was in the set. */
  method CleanupThenFree(q: EnifQueue)
    requires q.consumer.refs > 0 && Q.NULL !in q.consumer.qm.queues
    modifies q, q.consumer`refs, q.consumer.qm
    ensures Q.Destroyed(q.consumer.qm.calls) ==
      Q.Destroyed(old(q.consumer.qm.calls)) + if old(q.queue) in old(q.consumer.qm.queues) then [old(q.queue)] else []
  {
    ghost var before, queues, queue := q.consumer.qm.calls, q.consumer.qm.queues, q.queue;
    QueueCleanup(q);
    assert q.View(0, true).queue == Q.NULL;
    QueueFree(q);
    assert q.consumer.qm.calls == before + Q.RemoveCalls(q.consumer.qm.rk, queues, queue);
    Q.DestroyedAppend(before, Q.RemoveCalls(q.consumer.qm.rk, queues, queue));
    Q.WhatIsDestroyed(q.consumer.qm.rk, queues, queue, []);
  }

  class EnifProducer {
    const rk: Q.Addr
    var kf: Q.Addr
    var refs: nat
    var closedFuture: Future
    ghost var stage: L.Stage
    ghost var asked: seq<Asked>
    ghost var sent: seq<Sent>

    ghost function View(held: bool): L.Client
      reads this
    {
      L.Client(L.Producer, rk, kf, true, {}, refs, held, stage)
    }

    /** Once cleanup has begun the handle is out of the table, and it is flushed once. */
    ghost predicate Valid(notifier: D.QueueCallbacksDispatcher)
      reads this, notifier
    {
      && kf == rk != Q.NULL
      && match stage
         case Active => closedFuture == NotStarted && asked == []
         case Closing => closedFuture == Started && asked == [] && kf !in notifier.objects
         case Finished => closedFuture == Done && asked == [Flush] && kf !in notifier.objects
         case Freed => asked == [Flush, Destroy] && kf !in notifier.objects
         case _ => false
    }

    constructor (rk: Q.Addr, notifier: D.QueueCallbacksDispatcher)
      requires rk != Q.NULL
      ensures Valid(notifier) && sent == []
      ensures forall held :: View(held) == L.Client(L.Producer, rk, rk, true, {}, 1, held, L.Active)
    {
      this.rk, kf, refs, closedFuture := rk, rk, 1, NotStarted;
      stage, asked, sent := L.Active, [], [];
    }

    /** cleanup_producer: the handle stays, for the destructor to destroy. */
    method CleanupProducer(stopFeedback: bool, ghost notifier: D.QueueCallbacksDispatcher)
      requires kf == rk != Q.NULL && asked == [] && kf !in notifier.objects
      modifies this`closedFuture, this`stage, this`asked, this`sent
      ensures Valid(notifier) && stage == L.Finished && forall held :: View(held) == S.CleanedUp(old(View(held)))
      ensures sent == old(sent) + if stopFeedback then [ClientStopped] else []
    {
      asked := asked + [Flush];
      if stopFeedback {
        sent := sent + [ClientStopped];
      }
      closedFuture, stage := Done, L.Finished;
    }

    /** enif_producer_cleanup. */
    method ProducerCleanup(notifier: D.QueueCallbacksDispatcher)
      requires Valid(notifier) && stage == L.Active
      modifies this`closedFuture, this`stage, notifier
      ensures Valid(notifier) && forall held :: View(held) == S.CleanupBegun(old(View(held)))
      ensures notifier.objects == old(notifier.objects) - {rk}
    {
      var found := notifier.Remove(kf);
      closedFuture, stage := Started, L.Closing;
    }

    /** closed_future->get(). */
    method Await(ghost notifier: D.QueueCallbacksDispatcher)
      requires Valid(notifier) && (stage == L.Closing || stage == L.Finished)
      modifies this`closedFuture, this`stage, this`asked, this`sent
      ensures Valid(notifier) && stage == L.Finished && forall held :: View(held) == S.CleanedUp(old(View(held)))
    {
      if closedFuture == Started {
        CleanupProducer(true, notifier);
      }
    }

    /** enif_producer_free: on every path the handle is out of the table, and over the life of the
        producer it has been flushed once and then destroyed once. */
    method ProducerFree(notifier: D.QueueCallbacksDispatcher)
      requires Valid(notifier) && stage != L.Freed
      modifies this`closedFuture, this`stage, this`asked, this`sent, notifier
      ensures Valid(notifier) && asked == [Flush, Destroy] && rk !in notifier.objects
      ensures forall held :: View(held) == S.Ended(old(View(held)))
      ensures notifier.objects == old(notifier.objects) - {rk}
    {
      if closedFuture != NotStarted {
        Await(notifier);
      } else if kf != Q.NULL {
        var found := notifier.Remove(kf);
        CleanupProducer(false, notifier);
      }
      if kf != Q.NULL {
        asked := asked + [Destroy];
      }
      stage := L.Freed;
    }
  }
}
