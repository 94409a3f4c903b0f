/**
  The poll loop of a partition queue (enif_consumer_queue_poll in
  c_src/exrdkafka_consumer.cc). A queue holds fetch events, each with some messages; a
  message is represented by its offset.
 */
module QueuePoll {
  import opened Prelude
  import opened Consumer

  /** rd_kafka_queue_t, as far as polling without a timeout sees it. */
  class PartitionQueue {
    var events: seq<seq<Offset>>

    constructor (events: seq<seq<Offset>>)
      ensures this.events == events
    {
      this.events := events;
    }

    method Poll() returns (event: Option<seq<Offset>>)
      modifies this
      ensures old(events) == [] ==> event == None && events == []
      ensures old(events) != [] ==> event == Some(old(events)[0]) && events == old(events)[1..]
    {
      if events == [] {
        event := None;
      } else {
        event := Some(events[0]);
        events := events[1..];
      }
    }
  }

  /** What the NIF hands back: the messages and the offset of the last one, or -1. */
  datatype Polled = Polled(messages: seq<Offset>, last: int)

  function Room(maxBatch: nat, size: nat): nat {
    if size < maxBatch then maxBatch - size else 0
  }

  /** How many events the loop takes while there is `room` for more messages. */
  function EventsTaken(events: seq<seq<Offset>>, room: nat): (n: nat)
    ensures n <= |events|
  {
    if room == 0 || events == [] then 0
    else 1 + EventsTaken(events[1..], Room(room, |events[0]|))
  }

  function PollResult(events: seq<seq<Offset>>, maxBatch: nat): Polled {
    var messages := Flatten(events[..EventsTaken(events, maxBatch)]);
    Polled(messages, if messages == [] then -1 else messages[|messages| - 1])
  }

  /** Theorem. The loop takes whole events from the front, stops as soon as the batch is
      full or the queue empty, and so overshoots by less than the last event's size. */
  lemma {:induction false} EventsTakenIsLeast(events: seq<seq<Offset>>, maxBatch: nat)
    ensures var n := EventsTaken(events, maxBatch);
      && (n < |events| ==> |Flatten(events[..n])| >= maxBatch)
      && (n > 0 ==> |Flatten(events[..n - 1])| < maxBatch)
      && (n > 0 ==> |Flatten(events[..n])| < maxBatch + |events[n - 1]|)
  {
    var n := EventsTaken(events, maxBatch);
    if n == 0 {
    } else {
      var size := |events[0]|;
      var room := Room(maxBatch, size);
      EventsTakenIsLeast(events[1..], room);
      assert n - 1 == EventsTaken(events[1..], room);
      assert events[..n][1..] == events[1..][..n - 1] && events[..n][0] == events[0];
      if n > 1 {
        assert events[..n - 1][1..] == events[1..][..n - 2] && events[..n - 1][0] == events[0];
      } else {
        assert events[..n - 1] == [];
      }
    }
  }

  /** Theorem. What a poll reports as the last offset is -1 exactly for an empty batch, and otherwise
      the offset of the last message of it. */
  lemma LastIsLast(events: seq<seq<Offset>>, maxBatch: nat)
    ensures var (messages, last) := (PollResult(events, maxBatch).messages, PollResult(events, maxBatch).last);
      && (last == -1 <==> messages == [])
      && (messages != [] ==> last == messages[|messages| - 1])
      && (Flatten(events) != [] && maxBatch > 0 && events[0] != [] ==> messages != [])
  {
    if Flatten(events) != [] && maxBatch > 0 && events[0] != [] {
      var n := EventsTaken(events, maxBatch);
      assert events[..n][0] == events[0];
    }
  }

  lemma PollSplitsQueue(events: seq<seq<Offset>>, maxBatch: nat)
    ensures PollResult(events, maxBatch).messages + Flatten(events[EventsTaken(events, maxBatch)..]) == Flatten(events)
  {
    var n := EventsTaken(events, maxBatch);
    FlattenAppend(events[..n], events[n..]);
    assert events[..n] + events[n..] == events;
  }

  lemma PollMeans(events: seq<seq<Offset>>, maxBatch: nat)
    ensures var (polled, rest) := (PollResult(events, maxBatch), events[EventsTaken(events, maxBatch)..]);
      && polled.messages + Flatten(rest) == Flatten(events)
      && (polled.last == -1 <==> polled.messages == [])
      && (polled.messages != [] ==> polled.last == polled.messages[|polled.messages| - 1])
      && (|polled.messages| >= maxBatch || rest == [])
  {
    PollSplitsQueue(events, maxBatch);
    LastIsLast(events, maxBatch);
    EventsTakenIsLeast(events, maxBatch);
  }

  lemma TakeOneMore(events: seq<seq<Offset>>, n: nat, maxBatch: nat)
    requires n < |events| && |Flatten(events[..n])| < maxBatch
    requires n + EventsTaken(events[n..], Room(maxBatch, |Flatten(events[..n])|)) == EventsTaken(events, maxBatch)
    ensures Flatten(events[..n + 1]) == Flatten(events[..n]) + events[n]
    ensures n + 1 + EventsTaken(events[n + 1..], Room(maxBatch, |Flatten(events[..n + 1])|)) ==
      EventsTaken(events, maxBatch)
  {
    assert events[..n + 1] == events[..n] + [events[n]];
    FlattenAppend(events[..n], [events[n]]);
    FlattenOne(events[n]);
    assert events[n..][1..] == events[n + 1..];
  }

  method ConsumerQueuePoll(queue: PartitionQueue, maxBatch: nat) returns (polled: Polled)
    modifies queue
    ensures polled == PollResult(old(queue.events), maxBatch)
    ensures queue.events == old(queue.events)[EventsTaken(old(queue.events), maxBatch)..]
    ensures polled.messages + Flatten(queue.events) == Flatten(old(queue.events))
    ensures polled.last == -1 <==> polled.messages == []
    ensures polled.messages != [] ==> polled.last == polled.messages[|polled.messages| - 1]
    ensures |polled.messages| >= maxBatch || queue.events == []
  {
    var messages: seq<Offset>, last: int := [], -1;
    ghost var all, n := queue.events, 0;
    assert all[0..] == all && all[..0] == [];
    while |messages| < maxBatch
      invariant n <= |all| && queue.events == all[n..] && messages == Flatten(all[..n])
      invariant last == if messages == [] then -1 else messages[|messages| - 1]
      invariant n + EventsTaken(all[n..], Room(maxBatch, |messages|)) == EventsTaken(all, maxBatch)
      decreases |queue.events|
    {
      var event := queue.Poll();
      if event.None? {
        break;
      }
      ghost var before := messages;
      assert event.value == all[n] && queue.events == all[n + 1..];
      for i := 0 to |event.value|
        invariant messages == before + event.value[..i]
        invariant last == if messages == [] then -1 else messages[|messages| - 1]
        invariant queue.events == all[n + 1..]
      {
        messages := messages + [event.value[i]];
        last := event.value[i];
      }
      TakeOneMore(all, n, maxBatch);
      n := n + 1;
    }
    polled := Polled(messages, last);
    assert n == EventsTaken(all, maxBatch) && polled == PollResult(all, maxBatch);
    hide Flatten, EventsTaken, PollResult;
    PollMeans(all, maxBatch);
  }
}
