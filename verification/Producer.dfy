/**
  The producer process and its overflow queue (lib/exrdkafka/producer.ex,
  lib/exrdkafka/local_queue.ex). The queue on disk is a FIFO that survives the process.
 */
module Producer {
  import opened Prelude

  datatype Body = Body(topic: string, partition: int, key: Option<string>, value: string,
    headers: Option<seq<(string, string)>>)

  datatype Message = Message(body: Body, timestamp: int)

  /** What the queue may hold: older versions stored no timestamp. */
  datatype Payload = Untimed(body: Body) | Timed(body: Body, timestamp: int)

  function Decode(p: Payload): Message {
    match p
    case Untimed(body) => Message(body, 0)
    case Timed(body, timestamp) => Message(body, timestamp)
  }

  function Encode(m: Message): Payload {
    Timed(m.body, m.timestamp)
  }

  /** The result of the produce NIF, as the clauses of the callers name it. */
  datatype ProduceResult = Ok | QueueFull | Other(error: string)

  datatype Overflow = LocalDiskQueue | DropRecords | BlockCallingProcess

  datatype DrainOutcome = Completed | Continue

  const MAX_QUEUE_PROCESS_MSG: nat := 5000

  /** librdkafka's answers, call by call, and what it has accepted. */
  class Librdkafka {
    const script: nat -> ProduceResult
    var calls: nat
    var accepted: seq<Message>

    constructor (script: nat -> ProduceResult)
      ensures this.script == script && calls == 0 && accepted == []
    {
      this.script, calls, accepted := script, 0, [];
    }

    method Produce(m: Message) returns (r: ProduceResult)
      modifies this
      ensures r == script(old(calls)) && calls == old(calls) + 1
      ensures accepted == old(accepted) + if r.Ok? then [m] else []
    {
      r := script(calls);
      calls := calls + 1;
      if r.Ok? { accepted := accepted + [m]; }
    }
  }

  class LocalQueue {
    var items: seq<Payload>

    constructor (onDisk: seq<Payload>)
      ensures items == onDisk
    {
      items := onDisk;
    }

    method Enq(m: Message)
      modifies this
      ensures items == old(items) + [Encode(m)]
    {
      items := items + [Encode(m)];
    }

    method Head() returns (r: Option<Payload>)
      ensures r == if items == [] then None else Some(items[0])
    {
      if items == [] { return None; }
      return Some(items[0]);
    }

    method Deq()
      requires items != []
      modifies this
      ensures items == old(items)[1..]
    {
      items := items[1..];
    }
  }

  // ------------------------------------------------------- what a round of draining means

  /** `k` is how many messages a round over `items` disposes of, from call number `calls` on and
      at most `n`: up to the first queue-full answer, the end of the queue, or `n`. */
  ghost predicate IsDrainCount(items: seq<Payload>, script: nat -> ProduceResult, calls: nat, n: nat, k: nat) {
    && k <= n && k <= |items|
    && (forall j :: calls <= j < calls + k ==> !script(j).QueueFull?)
    && (k == n || k == |items| || script(calls + k).QueueFull?)
  }

  function DrainCount(items: seq<Payload>, script: nat -> ProduceResult, calls: nat, n: nat): (k: nat)
    ensures IsDrainCount(items, script, calls, n, k)
    decreases n
  {
    if n == 0 || items == [] || script(calls).QueueFull? then 0
    else
      DrainCount(items[1..], script, calls + 1, n - 1) + 1
  }

  /** The messages among `items` that librdkafka takes, in order. */
  function Taken(items: seq<Payload>, verdicts: seq<ProduceResult>): seq<Message>
    requires |items| == |verdicts|
  {
    if items == [] then []
    else
      var n := |items| - 1;
      Taken(items[..n], verdicts[..n]) + if verdicts[n].Ok? then [Decode(items[n])] else []
  }

  function Verdicts(script: nat -> ProduceResult, calls: nat, k: nat): (r: seq<ProduceResult>)
    ensures |r| == k && forall i :: 0 <= i < k ==> r[i] == script(calls + i)
  {
    seq(k, i requires 0 <= i < k => script(calls + i))
  }

  lemma {:induction false} TakenAppend(a: seq<Payload>, va: seq<ProduceResult>, b: seq<Payload>, vb: seq<ProduceResult>)
    requires |a| == |va| && |b| == |vb|
    ensures Taken(a + b, va + vb) == Taken(a, va) + Taken(b, vb)
    decreases |b|
  {
    if b == [] {
      assert a + b == a && va + vb == va;
    } else {
      var n := |b| - 1;
      assert (a + b)[..|a| + n] == a + b[..n] && (va + vb)[..|a| + n] == va + vb[..n];
      TakenAppend(a, va, b[..n], vb[..n]);
    }
  }

  // ------------------------------------------------------------------------ the process

  /** The queue and the process around it, with what has gone through them. */
  datatype State = State(
    items: seq<Payload>,             // on disk
    sch: bool,                       // pqueue_sch
    pending: nat,                    // consume_queue timers running and messages waiting
    calls: nat,
    accepted: seq<Message>,          // by librdkafka, from this queue or directly
    stored: seq<Payload>,            // history: all that was ever in the queue, oldest first
    processed: seq<Payload>,         // history: what has left the queue
    verdicts: seq<ProduceResult>,    // history: librdkafka's answer for each
    drained: seq<Message>)           // history: what it accepted from the queue

  function Init(overflow: Overflow, onDisk: seq<Payload>): State {
    State(onDisk, true, if overflow.LocalDiskQueue? then 1 else 0, 0, [], onDisk, [], [], [])
  }

  /** handle_call for queue_event; every strategy but local_disk_queue answers with its name. */
  function Enqueued(s: State, overflow: Overflow, m: Message): State {
    if overflow.LocalDiskQueue? then
      s.(items := s.items + [Encode(m)], sch := true, pending := if s.sch then s.pending else s.pending + 1,
         stored := s.stored + [Encode(m)])
    else s
  }

  /** `gone` has left the queue, with these answers from librdkafka. */
  function Moved(s: State, gone: seq<Payload>, verdicts: seq<ProduceResult>, rest: seq<Payload>, calls: nat): State
    requires |gone| == |verdicts|
  {
    s.(items := rest, calls := calls, accepted := s.accepted + Taken(gone, verdicts),
       processed := s.processed + gone, verdicts := s.verdicts + verdicts, drained := s.drained + Taken(gone, verdicts))
  }

  /** The effect of one call of consume_queue on queue and librdkafka. */
  function Drained(s: State, script: nat -> ProduceResult, n: nat): (State, DrainOutcome) {
    var k := DrainCount(s.items, script, s.calls, n);
    var full := k < n && k < |s.items|;
    (Moved(s, s.items[..k], Verdicts(script, s.calls, k), s.items[k..], s.calls + k + if full then 1 else 0),
     if k < n && k == |s.items| then Completed else Continue)
  }

  /** handle_info for consume_queue. */
  function Consumed(s: State, script: nat -> ProduceResult): State
    requires s.pending > 0
  {
    var (t, outcome) := Drained(s.(pending := s.pending - 1), script, MAX_QUEUE_PROCESS_MSG);
    if outcome.Completed? then t.(sch := false) else t.(sch := true, pending := t.pending + 1)
  }

  // ------------------------------------------------------------- one step of a drain round

  lemma MovedTwice(s: State, a: seq<Payload>, va: seq<ProduceResult>, b: seq<Payload>, vb: seq<ProduceResult>,
                   mid: seq<Payload>, calls: nat, rest: seq<Payload>, calls': nat)
    requires |a| == |va| && |b| == |vb|
    ensures Moved(Moved(s, a, va, mid, calls), b, vb, rest, calls') == Moved(s, a + b, va + vb, rest, calls')
  {
    TakenAppend(a, va, b, vb);
    hide Taken;
    assert (s.accepted + Taken(a, va)) + Taken(b, vb) == s.accepted + (Taken(a, va) + Taken(b, vb));
    assert (s.drained + Taken(a, va)) + Taken(b, vb) == s.drained + (Taken(a, va) + Taken(b, vb));
    assert (s.processed + a) + b == s.processed + (a + b) && (s.verdicts + va) + vb == s.verdicts + (va + vb);
  }

  /** Disposing of the head first and then of the rest is disposing of all. */
  lemma DrainStep(s: State, script: nat -> ProduceResult, n: nat)
    requires n > 0 && s.items != [] && !script(s.calls).QueueFull?
    ensures Drained(s, script, n) ==
      Drained(Moved(s, s.items[..1], [script(s.calls)], s.items[1..], s.calls + 1), script, n - 1)
  {
    hide Moved;
    var r, rest := script(s.calls), s.items[1..];
    var k := DrainCount(rest, script, s.calls + 1, n - 1);
    assert s.items[..k + 1] == s.items[..1] + rest[..k] && s.items[k + 1..] == rest[k..];
    assert Verdicts(script, s.calls, k + 1) == [r] + Verdicts(script, s.calls + 1, k);
    var calls' := s.calls + k + 1 + if k + 1 < n && k + 1 < |s.items| then 1 else 0;
    MovedTwice(s, s.items[..1], [r], rest[..k], Verdicts(script, s.calls + 1, k), rest, s.calls + 1, rest[k..], calls');
    MovedIs(s, s.items[..1], [r], rest, s.calls + 1);
  }

  lemma MovedIs(s: State, gone: seq<Payload>, verdicts: seq<ProduceResult>, rest: seq<Payload>, calls: nat)
    requires |gone| == |verdicts|
    ensures Moved(s, gone, verdicts, rest, calls).items == rest && Moved(s, gone, verdicts, rest, calls).calls == calls
  {
  }

  lemma HeadMoved(s: State, r: ProduceResult)
    requires s.items != []
    ensures var took := if r.Ok? then [Decode(s.items[0])] else [];
      Moved(s, s.items[..1], [r], s.items[1..], s.calls + 1) ==
      s.(items := s.items[1..], calls := s.calls + 1, accepted := s.accepted + took,
         processed := s.processed + [s.items[0]], verdicts := s.verdicts + [r], drained := s.drained + took)
  {
    assert s.items[..1] == [s.items[0]] && [s.items[0]][..0] == [];
    assert Taken([s.items[0]], [r]) == [] + if r.Ok? then [Decode(s.items[0])] else [];
  }

  lemma DrainStops(s: State, script: nat -> ProduceResult, n: nat)
    requires n == 0 || s.items == [] || script(s.calls).QueueFull?
    ensures var full := n > 0 && s.items != [];
      && Drained(s, script, n).0 == s.(calls := s.calls + if full then 1 else 0)
      && Drained(s, script, n).1 == if n > 0 && s.items == [] then Completed else Continue
  {
    assert s.items[..0] == [] && s.items[0..] == s.items;
    assert s.processed + [] == s.processed && s.verdicts + [] == s.verdicts && s.accepted + [] == s.accepted &&
      s.drained + [] == s.drained;
  }

  class Process {
    const overflow: Overflow
    const kafka: Librdkafka
    const pqueue: LocalQueue
    var pqueueSch: bool
    var pending: nat
    ghost var stored: seq<Payload>
    ghost var processed: seq<Payload>
    ghost var verdicts: seq<ProduceResult>
    ghost var drained: seq<Message>

    ghost function View(): State
      reads this, kafka, pqueue
    {
      State(pqueue.items, pqueueSch, pending, kafka.calls, kafka.accepted, stored, processed, verdicts, drained)
    }

    constructor (overflow: Overflow, kafka: Librdkafka, pqueue: LocalQueue)
      requires kafka.calls == 0 && kafka.accepted == []
      ensures this.overflow == overflow && this.kafka == kafka && this.pqueue == pqueue
      ensures View() == Init(overflow, pqueue.items)
    {
      this.overflow, this.kafka, this.pqueue := overflow, kafka, pqueue;
      pending := if overflow.LocalDiskQueue? then 1 else 0;
      pqueueSch := true;
      stored, processed, verdicts, drained := pqueue.items, [], [], [];
    }

    method ScheduleConsumeQueue()
      modifies this`pending
      ensures pending == old(pending) + 1
    {
      pending := pending + 1;
    }

    /** The reply is None for :ok, or the name of the strategy. */
    method QueueEvent(m: Message) returns (reply: Option<Overflow>)
      modifies this, pqueue
      ensures View() == Enqueued(old(View()), overflow, m)
      ensures reply == if overflow.LocalDiskQueue? then None else Some(overflow)
    {
      match overflow
      case LocalDiskQueue =>
        if !pqueueSch { ScheduleConsumeQueue(); }
        pqueue.Enq(m);
        stored := stored + [Encode(m)];
        pqueueSch := true;
        reply := None;
      case _ =>
        reply := Some(overflow);
    }

    method DrainQueue(n: nat) returns (outcome: DrainOutcome)
      modifies this`processed, this`verdicts, this`drained, kafka, pqueue
      ensures (View(), outcome) == Drained(old(View()), kafka.script, n)
      decreases n
    {
      hide Drained, Moved, Decode;
      ghost var was := View();
      if n == 0 {
        DrainStops(was, kafka.script, n);
        return Continue;
      }
      var head := pqueue.Head();
      if head.None? {
        DrainStops(was, kafka.script, n);
        return Completed;
      }
      var r := kafka.Produce(Decode(head.value));
      if r.QueueFull? {
        DrainStops(was, kafka.script, n);
        assert kafka.accepted == was.accepted;
        return Continue;
      }
      pqueue.Deq();
      processed, verdicts := processed + [head.value], verdicts + [r];
      drained := drained + if r.Ok? then [Decode(head.value)] else [];
      DrainStep(was, kafka.script, n);
      HeadMoved(was, r);
      outcome := DrainQueue(n - 1);
    }

    /** The message consume_queue has arrived. */
    method ConsumeQueue()
      requires pending > 0
      modifies this, kafka, pqueue
      ensures View() == Consumed(old(View()), kafka.script)
    {
      hide Drained, DrainCount, Moved;
      pending := pending - 1;
      var outcome := DrainQueue(MAX_QUEUE_PROCESS_MSG);
      match outcome
      case Completed =>
        pqueueSch := false;
      case Continue =>
        ScheduleConsumeQueue();
        pqueueSch := true;
    }
  }
}
