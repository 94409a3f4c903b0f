/**
  Every run of a producer: calls of produce (lib/exrdkafka.ex), callers that block until there is
  room, drain rounds of the producer process and its restarts, in any interleaving and with any
  answers from librdkafka.
 */
module ProducerRuns {
  import opened Producer

  /** CacheClient.get; an unknown client answers :undefined. */
  datatype Lookup = Found | Missing(error: string)

  /** Utils.safe_call to the producer process. When it fails, the process may or may not have
      handled the request. */
  datatype CallResult = Answered | Failed(error: string, handled: bool)

  datatype Run = Run(
    s: State,
    called: seq<Message>,      // history: calls of produce
    blocked: seq<Message>,     // callers in produce_blocking
    oks: seq<Message>,         // history: calls of produce that returned :ok
    errors: seq<Message>,      // history: calls that returned an error
    direct: seq<Message>,      // history: accepted by librdkafka from a call of produce
    enqueued: seq<Message>,    // history: put into the local queue
    unsure: seq<Message>,      // history: enqueued, with an error as the reply
    discarded: seq<Message>)   // history: dropped

  datatype Action =
    | Produce(m: Message, lookup: Lookup, call: CallResult)
    | Retry(i: nat)
    | ConsumeQueue
    | Restart

  function Start(overflow: Overflow, onDisk: seq<Payload>): Run {
    Run(Init(overflow, onDisk), [], [], [], [], [], [], [], [])
  }

  predicate Can(r: Run, a: Action) {
    match a
    case Retry(i) => i < |r.blocked|
    case ConsumeQueue => r.s.pending > 0
    case _ => true
  }

  /** One call of the produce NIF from outside the producer process. */
  function Asked(s: State, result: ProduceResult, m: Message): State {
    s.(calls := s.calls + 1, accepted := s.accepted + if result.Ok? then [m] else [])
  }

  /** The reply to queue_event. */
  function OnOverflow(r: Run, overflow: Overflow, m: Message, call: CallResult): Run {
    match call
    case Answered => (
      match overflow
      case LocalDiskQueue => r.(s := Enqueued(r.s, overflow, m), enqueued := r.enqueued + [m], oks := r.oks + [m])
      case DropRecords => r.(discarded := r.discarded + [m], oks := r.oks + [m])
      case BlockCallingProcess => r.(blocked := r.blocked + [m]))
    case Failed(_, handled) =>
      if handled && overflow.LocalDiskQueue? then
        r.(s := Enqueued(r.s, overflow, m), enqueued := r.enqueued + [m], unsure := r.unsure + [m],
          errors := r.errors + [m])
      else
        r.(errors := r.errors + [m])
  }

  function OnProduce(r: Run, overflow: Overflow, script: nat -> ProduceResult, m: Message, lookup: Lookup,
                     call: CallResult): Run {
    if lookup.Missing? then r.(errors := r.errors + [m])
    else
      var result := script(r.s.calls);
      var t := r.(s := Asked(r.s, result, m));
      match result
      case Ok => t.(direct := r.direct + [m], oks := r.oks + [m])
      case QueueFull => OnOverflow(t, overflow, m, call)
      case Other(_) => t.(errors := r.errors + [m])
  }

  /** One round of produce_blocking. */
  function OnRetry(r: Run, script: nat -> ProduceResult, i: nat): Run
    requires i < |r.blocked|
  {
    var (m, result) := (r.blocked[i], script(r.s.calls));
    var t := r.(s := Asked(r.s, result, m));
    var left := r.blocked[..i] + r.blocked[i + 1..];
    match result
    case Ok => t.(blocked := left, direct := r.direct + [m], oks := r.oks + [m])
    case QueueFull => t
    case Other(_) => t.(blocked := left, errors := r.errors + [m])
  }

  /** The process starts again on what is on disk; its timers are gone. */
  function Restarted(s: State, overflow: Overflow): State {
    s.(sch := true, pending := if overflow.LocalDiskQueue? then 1 else 0)
  }

  function Apply(r: Run, overflow: Overflow, script: nat -> ProduceResult, a: Action): Run
    requires Can(r, a)
  {
    match a
    case Produce(m, lookup, call) => OnProduce(r.(called := r.called + [m]), overflow, script, m, lookup, call)
    case Retry(i) => OnRetry(r, script, i)
    case ConsumeQueue => r.(s := Consumed(r.s, script))
    case Restart => r.(s := Restarted(r.s, overflow))
  }

  predicate IsRun(r: Run, overflow: Overflow, script: nat -> ProduceResult, actions: seq<Action>)
    decreases |actions|
  {
    actions == [] ||
    (Can(r, actions[0]) && IsRun(Apply(r, overflow, script, actions[0]), overflow, script, actions[1..]))
  }

  function After(r: Run, overflow: Overflow, script: nat -> ProduceResult, actions: seq<Action>): Run
    requires IsRun(r, overflow, script, actions)
    decreases |actions|
  {
    if actions == [] then r else After(Apply(r, overflow, script, actions[0]), overflow, script, actions[1..])
  }

  ghost predicate Reachable(overflow: Overflow, onDisk: seq<Payload>, script: nat -> ProduceResult, r: Run) {
    exists actions :: IsRun(Start(overflow, onDisk), overflow, script, actions) &&
      r == After(Start(overflow, onDisk), overflow, script, actions)
  }

  // ------------------------------------------------------------------------ invariant

  ghost predicate WakeUp(overflow: Overflow, s: State) {
    if overflow.LocalDiskQueue? then s.pending <= 1 && (s.sch <==> s.pending == 1) && (s.items != [] ==> s.sch)
    else s.pending == 0
  }

  ghost predicate Fifo(s: State) {
    && s.stored == s.processed + s.items
    && |s.verdicts| == |s.processed|
    && (forall i :: 0 <= i < |s.verdicts| ==> !s.verdicts[i].QueueFull?)
    && s.drained == Taken(s.processed, s.verdicts)
  }

  function EncodeAll(ms: seq<Message>): (r: seq<Payload>)
    ensures |r| == |ms| && forall i :: 0 <= i < |r| ==> r[i] == Encode(ms[i])
  {
    seq(|ms|, i requires 0 <= i < |ms| => Encode(ms[i]))
  }

  function DecodeAll(items: seq<Payload>): (r: seq<Message>)
    ensures |r| == |items| && forall i :: 0 <= i < |r| ==> r[i] == Decode(items[i])
  {
    seq(|items|, i requires 0 <= i < |items| => Decode(items[i]))
  }

  /** Where each message has gone. */
  ghost predicate Accounts(r: Run) {
    && multiset(r.s.accepted) == multiset(r.direct) + multiset(r.s.drained)
    && multiset(r.oks) + multiset(r.unsure) == multiset(r.direct) + multiset(r.enqueued) + multiset(r.discarded)
  }

  ghost predicate Strategy(overflow: Overflow, onDisk: seq<Payload>, r: Run) {
    && r.s.stored == onDisk + EncodeAll(r.enqueued)
    && (r.enqueued != [] ==> overflow.LocalDiskQueue?)
    && (r.discarded != [] ==> overflow.DropRecords?)
    && (r.blocked != [] ==> overflow.BlockCallingProcess?)
  }

  ghost predicate Inv(overflow: Overflow, onDisk: seq<Payload>, r: Run) {
    WakeUp(overflow, r.s) && Fifo(r.s) && Accounts(r) && Strategy(overflow, onDisk, r)
  }

  lemma StartInv(overflow: Overflow, onDisk: seq<Payload>)
    ensures Inv(overflow, onDisk, Start(overflow, onDisk))
  {
    assert onDisk + EncodeAll([]) == onDisk;
    assert [] + onDisk == onDisk;
  }

  lemma MovedKeepsFifo(s: State, gone: seq<Payload>, verdicts: seq<ProduceResult>, rest: seq<Payload>, calls: nat)
    requires Fifo(s) && s.items == gone + rest && |gone| == |verdicts|
    requires forall i :: 0 <= i < |verdicts| ==> !verdicts[i].QueueFull?
    ensures Fifo(Moved(s, gone, verdicts, rest, calls))
  {
    TakenAppend(s.processed, s.verdicts, gone, verdicts);
    hide Taken;
    assert s.processed + (gone + rest) == (s.processed + gone) + rest;
  }

  lemma DrainedKeepsFifo(s: State, script: nat -> ProduceResult, n: nat)
    requires Fifo(s)
    ensures Fifo(Drained(s, script, n).0)
    ensures var t := Drained(s, script, n).0; t.stored == s.stored && t.sch == s.sch && t.pending == s.pending
  {
    hide Fifo, Taken;
    var k := DrainCount(s.items, script, s.calls, n);
    assert s.items == s.items[..k] + s.items[k..];
    MovedKeepsFifo(s, s.items[..k], Verdicts(script, s.calls, k), s.items[k..], Drained(s, script, n).0.calls);
  }

  lemma ConsumeKeepsAccounts(s: State, script: nat -> ProduceResult, n: nat, direct: multiset<Message>)
    requires multiset(s.accepted) == direct + multiset(s.drained)
    ensures var t := Drained(s, script, n).0; multiset(t.accepted) == direct + multiset(t.drained)
  {
    var k := DrainCount(s.items, script, s.calls, n);
    var took := Taken(s.items[..k], Verdicts(script, s.calls, k));
    hide Taken;
    assert multiset(s.accepted + took) == multiset(s.accepted) + multiset(took);
    assert multiset(s.drained + took) == multiset(s.drained) + multiset(took);
  }

  lemma CompletedIsEmpty(s: State, script: nat -> ProduceResult, n: nat)
    ensures Drained(s, script, n).1.Completed? ==> Drained(s, script, n).0.items == []
  {
  }

  lemma FifoAnyway(s: State, sch: bool, pending: nat)
    ensures Fifo(s.(sch := sch, pending := pending)) == Fifo(s)
  {
  }

  lemma ConsumeKeeps(overflow: Overflow, onDisk: seq<Payload>, script: nat -> ProduceResult, r: Run)
    requires Inv(overflow, onDisk, r) && r.s.pending > 0
    ensures Inv(overflow, onDisk, r.(s := Consumed(r.s, script)))
  {
    hide Drained, Fifo;
    var s := r.s.(pending := r.s.pending - 1);
    FifoAnyway(r.s, r.s.sch, r.s.pending - 1);
    DrainedKeepsFifo(s, script, MAX_QUEUE_PROCESS_MSG);
    ConsumeKeepsAccounts(s, script, MAX_QUEUE_PROCESS_MSG, multiset(r.direct));
    CompletedIsEmpty(s, script, MAX_QUEUE_PROCESS_MSG);
    var t := Drained(s, script, MAX_QUEUE_PROCESS_MSG).0;
    FifoAnyway(t, true, t.pending + 1);
    FifoAnyway(t, false, t.pending);
  }

  lemma EnqueueKeeps(overflow: Overflow, onDisk: seq<Payload>, s: State, enqueued: seq<Message>, m: Message)
    requires WakeUp(overflow, s) && Fifo(s) && s.stored == onDisk + EncodeAll(enqueued) && overflow.LocalDiskQueue?
    ensures var t := Enqueued(s, overflow, m);
      && WakeUp(overflow, t) && Fifo(t) && t.stored == onDisk + EncodeAll(enqueued + [m])
      && t.accepted == s.accepted && t.drained == s.drained
  {
    assert s.processed + (s.items + [Encode(m)]) == (s.processed + s.items) + [Encode(m)];
    assert EncodeAll(enqueued + [m]) == EncodeAll(enqueued) + [Encode(m)];
    assert onDisk + (EncodeAll(enqueued) + [Encode(m)]) == (onDisk + EncodeAll(enqueued)) + [Encode(m)];
  }

  lemma AskedKeeps(s: State, overflow: Overflow, result: ProduceResult, m: Message)
    requires WakeUp(overflow, s) && Fifo(s)
    ensures WakeUp(overflow, Asked(s, result, m)) && Fifo(Asked(s, result, m))
  {
    hide Taken;
  }

  lemma OverflowKeeps(overflow: Overflow, onDisk: seq<Payload>, r: Run, m: Message, call: CallResult)
    requires Inv(overflow, onDisk, r)
    ensures Inv(overflow, onDisk, OnOverflow(r, overflow, m, call))
  {
    if overflow.LocalDiskQueue? { EnqueueKeeps(overflow, onDisk, r.s, r.enqueued, m); }
    hide WakeUp, Fifo, Enqueued;
    BothSides(multiset(r.oks), multiset(r.unsure), multiset(r.direct), multiset(r.enqueued), multiset(r.discarded), m);
    OneMore(r.enqueued, m);
    OneMore(r.oks, m);
    OneMore(r.unsure, m);
    OneMore(r.discarded, m);
  }

  /** Counting one more message on both sides. */
  lemma BothSides(a: multiset<Message>, b: multiset<Message>, x: multiset<Message>, y: multiset<Message>,
                  z: multiset<Message>, m: Message)
    requires a + b == x + y + z
    ensures (a + multiset{m}) + b == (x + multiset{m}) + y + z
    ensures (a + multiset{m}) + b == x + (y + multiset{m}) + z
    ensures (a + multiset{m}) + b == x + y + (z + multiset{m})
    ensures a + (b + multiset{m}) == x + (y + multiset{m}) + z
  {
    assert (a + multiset{m}) + b == (a + b) + multiset{m} && a + (b + multiset{m}) == (a + b) + multiset{m};
  }

  lemma OneMore(ms: seq<Message>, m: Message)
    ensures multiset(ms + [m]) == multiset(ms) + multiset{m} && multiset(ms + []) == multiset(ms)
  {
    assert ms + [] == ms;
  }

  lemma DirectKeeps(overflow: Overflow, onDisk: seq<Payload>, r: Run, m: Message)
    requires Inv(overflow, onDisk, r)
    ensures Inv(overflow, onDisk, r.(s := Asked(r.s, Ok, m), direct := r.direct + [m], oks := r.oks + [m]))
  {
    hide WakeUp, Fifo;
    AskedKeeps(r.s, overflow, Ok, m);
    BothSides(multiset(r.oks), multiset(r.unsure), multiset(r.direct), multiset(r.enqueued), multiset(r.discarded), m);
    OneMore(r.s.accepted, m);
    OneMore(r.direct, m);
    OneMore(r.oks, m);
  }

  lemma RefusedKeeps(overflow: Overflow, onDisk: seq<Payload>, r: Run, result: ProduceResult, m: Message)
    requires Inv(overflow, onDisk, r) && !result.Ok?
    ensures Inv(overflow, onDisk, r.(s := Asked(r.s, result, m)))
  {
    hide WakeUp, Fifo;
    AskedKeeps(r.s, overflow, result, m);
    assert r.s.accepted + [] == r.s.accepted;
  }

  /** Errors are only counted, and callers may stop waiting. */
  lemma SideEffects(overflow: Overflow, onDisk: seq<Payload>, r: Run, errors: seq<Message>, blocked: seq<Message>)
    requires Inv(overflow, onDisk, r) && (blocked != [] ==> r.blocked != [])
    ensures Inv(overflow, onDisk, r.(errors := errors, blocked := blocked))
  {
    hide WakeUp, Fifo;
  }

  lemma ProduceKeeps(overflow: Overflow, onDisk: seq<Payload>, script: nat -> ProduceResult, r: Run,
                     m: Message, lookup: Lookup, call: CallResult)
    requires Inv(overflow, onDisk, r)
    ensures Inv(overflow, onDisk, OnProduce(r, overflow, script, m, lookup, call))
  {
    hide Inv, OnOverflow, Asked;
    var result := script(r.s.calls);
    var t := r.(s := Asked(r.s, result, m));
    if lookup.Missing? {
      SideEffects(overflow, onDisk, r, r.errors + [m], r.blocked);
    } else if result.Ok? {
      DirectKeeps(overflow, onDisk, r, m);
    } else {
      RefusedKeeps(overflow, onDisk, r, result, m);
      if result.QueueFull? {
        OverflowKeeps(overflow, onDisk, t, m, call);
      } else {
        SideEffects(overflow, onDisk, t, r.errors + [m], r.blocked);
      }
    }
  }

  lemma RetryKeeps(overflow: Overflow, onDisk: seq<Payload>, script: nat -> ProduceResult, r: Run, i: nat)
    requires Inv(overflow, onDisk, r) && i < |r.blocked|
    ensures Inv(overflow, onDisk, OnRetry(r, script, i))
  {
    hide Inv, Asked;
    var m, result := r.blocked[i], script(r.s.calls);
    var left := r.blocked[..i] + r.blocked[i + 1..];
    if result.Ok? {
      DirectKeeps(overflow, onDisk, r, m);
      var t := r.(s := Asked(r.s, Ok, m), direct := r.direct + [m], oks := r.oks + [m]);
      SideEffects(overflow, onDisk, t, r.errors, left);
    } else {
      RefusedKeeps(overflow, onDisk, r, result, m);
      SideEffects(overflow, onDisk, r.(s := Asked(r.s, result, m)), r.errors + [m], left);
    }
  }

  lemma StepKeepsInv(overflow: Overflow, onDisk: seq<Payload>, script: nat -> ProduceResult, r: Run, a: Action)
    requires Inv(overflow, onDisk, r) && Can(r, a)
    ensures Inv(overflow, onDisk, Apply(r, overflow, script, a))
  {
    match a
    case Produce(m, lookup, call) =>
      assert Inv(overflow, onDisk, r.(called := r.called + [m]));
      ProduceKeeps(overflow, onDisk, script, r.(called := r.called + [m]), m, lookup, call);
    case Retry(i) => RetryKeeps(overflow, onDisk, script, r, i);
    case ConsumeQueue => ConsumeKeeps(overflow, onDisk, script, r);
    case Restart =>
  }

  /** Every call has been answered or is still blocked; whoever is in the queue against its answer
      was answered with an error. */
  ghost predicate AllAnswered(r: Run) {
    && multiset(r.called) == multiset(r.oks) + multiset(r.errors) + multiset(r.blocked)
    && multiset(r.unsure) <= multiset(r.errors)
  }

  lemma OneAnswer(c: multiset<Message>, a: multiset<Message>, e: multiset<Message>, b: multiset<Message>, m: Message)
    requires c == a + e + b
    ensures c + multiset{m} == (a + multiset{m}) + e + b
    ensures c + multiset{m} == a + (e + multiset{m}) + b
    ensures c + multiset{m} == a + e + (b + multiset{m})
  {
  }

  lemma ProduceKeepsAnswered(overflow: Overflow, script: nat -> ProduceResult, r: Run, m: Message, lookup: Lookup,
                             call: CallResult)
    requires AllAnswered(r)
    ensures AllAnswered(OnProduce(r.(called := r.called + [m]), overflow, script, m, lookup, call))
  {
    OneAnswer(multiset(r.called), multiset(r.oks), multiset(r.errors), multiset(r.blocked), m);
    OneMore(r.called, m);
    OneMore(r.oks, m);
    OneMore(r.errors, m);
    OneMore(r.blocked, m);
    OneMore(r.unsure, m);
    hide Enqueued, Asked;
  }

  lemma WithoutOne(ms: seq<Message>, i: nat)
    requires i < |ms|
    ensures multiset(ms) == multiset(ms[..i] + ms[i + 1..]) + multiset{ms[i]}
  {
    assert ms == ms[..i] + ([ms[i]] + ms[i + 1..]);
    assert multiset(ms) == multiset(ms[..i]) + (multiset{ms[i]} + multiset(ms[i + 1..]));
    assert multiset(ms[..i] + ms[i + 1..]) == multiset(ms[..i]) + multiset(ms[i + 1..]);
  }

  lemma AnsweredNow(c: multiset<Message>, a: multiset<Message>, e: multiset<Message>, left: multiset<Message>,
                    m: Message)
    requires c == a + e + (left + multiset{m})
    ensures c == (a + multiset{m}) + e + left == a + (e + multiset{m}) + left
  {
  }

  lemma RetryKeepsAnswered(script: nat -> ProduceResult, r: Run, i: nat)
    requires AllAnswered(r) && i < |r.blocked|
    ensures AllAnswered(OnRetry(r, script, i))
  {
    var left := multiset(r.blocked[..i] + r.blocked[i + 1..]);
    var m := r.blocked[i];
    WithoutOne(r.blocked, i);
    OneMore(r.oks, m);
    OneMore(r.errors, m);
    AnsweredNow(multiset(r.called), multiset(r.oks), multiset(r.errors), left, m);
    hide Asked;
  }

  lemma StepKeepsAnswered(overflow: Overflow, script: nat -> ProduceResult, r: Run, a: Action)
    requires AllAnswered(r) && Can(r, a)
    ensures AllAnswered(Apply(r, overflow, script, a))
  {
    hide OnProduce, OnRetry;
    match a
    case Produce(m, lookup, call) => ProduceKeepsAnswered(overflow, script, r, m, lookup, call);
    case Retry(i) => RetryKeepsAnswered(script, r, i);
    case _ =>
  }

  lemma {:induction false} RunKeepsAnswered(overflow: Overflow, script: nat -> ProduceResult, r: Run,
                                            actions: seq<Action>)
    requires AllAnswered(r) && IsRun(r, overflow, script, actions)
    ensures AllAnswered(After(r, overflow, script, actions))
    decreases |actions|
  {
    hide Apply, AllAnswered;
    if actions == [] {
    } else {
      StepKeepsAnswered(overflow, script, r, actions[0]);
      RunKeepsAnswered(overflow, script, Apply(r, overflow, script, actions[0]), actions[1..]);
    }
  }

  lemma {:induction false} RunKeepsInv(overflow: Overflow, onDisk: seq<Payload>, script: nat -> ProduceResult, r: Run,
                                       actions: seq<Action>)
    requires Inv(overflow, onDisk, r) && IsRun(r, overflow, script, actions)
    ensures Inv(overflow, onDisk, After(r, overflow, script, actions))
    decreases |actions|
  {
    hide Inv, Apply;
    if actions == [] {
    } else {
      StepKeepsInv(overflow, onDisk, script, r, actions[0]);
      RunKeepsInv(overflow, onDisk, script, Apply(r, overflow, script, actions[0]), actions[1..]);
    }
  }

  lemma ReachableInv(overflow: Overflow, onDisk: seq<Payload>, script: nat -> ProduceResult, r: Run)
    requires Reachable(overflow, onDisk, script, r)
    ensures Inv(overflow, onDisk, r)
  {
    var start := Start(overflow, onDisk);
    var actions :| IsRun(start, overflow, script, actions) && r == After(start, overflow, script, actions);
    StartInv(overflow, onDisk);
    RunKeepsInv(overflow, onDisk, script, start, actions);
  }

  // -------------------------------------------------------------------------- theorems

  /** Theorem. With a local disk queue no wake-up is lost or doubled: the flag is up exactly when
      one consume_queue timer or message is pending, there are never two, and there is one
      whenever the queue is not empty, what was on disk at the start included. */
  lemma NoLostWakeUp(onDisk: seq<Payload>, script: nat -> ProduceResult, r: Run)
    requires Reachable(LocalDiskQueue, onDisk, script, r)
    ensures r.s.pending <= 1 && (r.s.sch <==> r.s.pending == 1) && (r.s.items != [] ==> r.s.pending == 1)
  {
    ReachableInv(LocalDiskQueue, onDisk, script, r);
  }

  /** Theorem. The queue is a FIFO that loses nothing: what was on disk and what has been enqueued
      since is what has been processed followed by what is still there. What librdkafka took from
      it is the processed messages, in order, less those skipped because of an error; a
      queue-full answer never disposes of a message. */
  lemma QueueConserves(overflow: Overflow, onDisk: seq<Payload>, script: nat -> ProduceResult, r: Run)
    requires Reachable(overflow, onDisk, script, r)
    ensures onDisk + EncodeAll(r.enqueued) == r.s.processed + r.s.items
    ensures |r.s.verdicts| == |r.s.processed| && r.s.drained == Taken(r.s.processed, r.s.verdicts)
    ensures forall i :: 0 <= i < |r.s.verdicts| ==> r.s.verdicts[i].Ok? || r.s.verdicts[i].Other?
  {
    ReachableInv(overflow, onDisk, script, r);
  }

  /** How many of these answers are :ok. */
  function Oks(verdicts: seq<ProduceResult>): nat {
    if verdicts == [] then 0
    else Oks(verdicts[..|verdicts| - 1]) + if verdicts[|verdicts| - 1].Ok? then 1 else 0
  }

  lemma {:induction false} TakenAt(items: seq<Payload>, verdicts: seq<ProduceResult>, i: nat)
    requires |items| == |verdicts| && i < |items|
    ensures |Taken(items, verdicts)| == Oks(verdicts)
    ensures Oks(verdicts[..i]) + (if verdicts[i].Ok? then 1 else 0) <= Oks(verdicts)
    ensures verdicts[i].Ok? ==> Taken(items, verdicts)[Oks(verdicts[..i])] == Decode(items[i])
  {
    var n := |items| - 1;
    if n == 0 {
    } else {
      TakenAt(items[..n], verdicts[..n], if i < n then i else n - 1);
      if i < n { assert verdicts[..n][..i] == verdicts[..i]; }
    }
  }

  /** Theorem. What librdkafka took from the queue it took in the queue's order, each message as it
      was enqueued, those stored without a timestamp with 0. */
  lemma DrainedInOrder(overflow: Overflow, onDisk: seq<Payload>, script: nat -> ProduceResult, r: Run, i: nat)
    requires Reachable(overflow, onDisk, script, r) && i < |r.s.processed|
    ensures |r.s.verdicts| == |r.s.processed| && |r.s.drained| == Oks(r.s.verdicts)
    ensures r.s.verdicts[i].Ok? ==>
      var (at, p) := (Oks(r.s.verdicts[..i]), r.s.processed[i]);
      at < |r.s.drained| && r.s.drained[at] == Message(p.body, if p.Timed? then p.timestamp else 0)
  {
    QueueConserves(overflow, onDisk, script, r);
    TakenAt(r.s.processed, r.s.verdicts, i);
    hide Reachable;
  }

  /** What was skipped because of an error. */
  function Skipped(items: seq<Payload>, verdicts: seq<ProduceResult>): seq<Message>
    requires |items| == |verdicts|
  {
    if items == [] then []
    else
      var n := |items| - 1;
      Skipped(items[..n], verdicts[..n]) + if verdicts[n].Other? then [Decode(items[n])] else []
  }

  lemma {:induction false} TakenOrSkipped(items: seq<Payload>, verdicts: seq<ProduceResult>)
    requires |items| == |verdicts| && forall i :: 0 <= i < |verdicts| ==> !verdicts[i].QueueFull?
    ensures multiset(DecodeAll(items)) == multiset(Taken(items, verdicts)) + multiset(Skipped(items, verdicts))
  {
    if items == [] {
    } else {
      var n := |items| - 1;
      var m := Decode(items[n]);
      TakenOrSkipped(items[..n], verdicts[..n]);
      hide DecodeAll, Decode;
      LastDecoded(items);
      var taken, skipped := Taken(items[..n], verdicts[..n]), Skipped(items[..n], verdicts[..n]);
      assert Taken(items, verdicts) == taken + if verdicts[n].Ok? then [m] else [];
      assert Skipped(items, verdicts) == skipped + if verdicts[n].Other? then [m] else [];
      hide Taken, Skipped;
      OneMore(DecodeAll(items[..n]), m);
      OneMore(taken, m);
      OneMore(skipped, m);
    }
  }

  lemma LastDecoded(items: seq<Payload>)
    requires items != []
    ensures DecodeAll(items) == DecodeAll(items[..|items| - 1]) + [Decode(items[|items| - 1])]
  {
  }

  lemma DecodeOfStored(onDisk: seq<Payload>, enqueued: seq<Message>, processed: seq<Payload>, items: seq<Payload>)
    requires onDisk + EncodeAll(enqueued) == processed + items
    ensures DecodeAll(onDisk) + enqueued == DecodeAll(processed) + DecodeAll(items)
  {
    assert DecodeAll(EncodeAll(enqueued)) == enqueued;
    assert DecodeAll(onDisk + EncodeAll(enqueued)) == DecodeAll(onDisk) + DecodeAll(EncodeAll(enqueued));
    assert DecodeAll(processed + items) == DecodeAll(processed) + DecodeAll(items);
  }

  /** Theorem. No message is lost or duplicated by the client. Every call of produce has returned
      :ok, has returned an error or is blocked. The messages found on disk, those told :ok, and
      those among the errors that the producer process had nevertheless enqueued are, counted with
      multiplicity, those that librdkafka accepted, those skipped because of an error, those still
      queued and those dropped: no other message with an error, and none of a blocked caller, is
      among them. */
  lemma EveryMessageIsAccountedFor(overflow: Overflow, onDisk: seq<Payload>, script: nat -> ProduceResult, r: Run)
    requires Reachable(overflow, onDisk, script, r)
    ensures multiset(r.called) == multiset(r.oks) + multiset(r.errors) + multiset(r.blocked)
    ensures multiset(r.unsure) <= multiset(r.errors) && |r.s.verdicts| == |r.s.processed|
    ensures multiset(DecodeAll(onDisk)) + multiset(r.oks) + multiset(r.unsure) ==
      multiset(r.s.accepted) + multiset(Skipped(r.s.processed, r.s.verdicts)) + multiset(DecodeAll(r.s.items)) +
        multiset(r.discarded)
  {
    ReachableInv(overflow, onDisk, script, r);
    ReachableAnswered(overflow, onDisk, script, r);
    TakenOrSkipped(r.s.processed, r.s.verdicts);
    DecodeOfStored(onDisk, r.enqueued, r.s.processed, r.s.items);
    var (disk, processed, items) := (DecodeAll(onDisk), DecodeAll(r.s.processed), DecodeAll(r.s.items));
    assert multiset(disk) + multiset(r.enqueued) == multiset(disk + r.enqueued);
    assert multiset(processed + items) == multiset(processed) + multiset(items);
    hide Taken, Skipped, DecodeAll, WakeUp;
    Balance(multiset(disk), multiset(r.oks), multiset(r.unsure), multiset(r.s.accepted), multiset(r.s.drained),
            multiset(r.direct), multiset(r.enqueued), multiset(r.discarded), multiset(processed), multiset(items),
            multiset(Skipped(r.s.processed, r.s.verdicts)));
  }

  lemma ReachableAnswered(overflow: Overflow, onDisk: seq<Payload>, script: nat -> ProduceResult, r: Run)
    requires Reachable(overflow, onDisk, script, r)
    ensures AllAnswered(r)
  {
    var start := Start(overflow, onDisk);
    var actions :| IsRun(start, overflow, script, actions) && r == After(start, overflow, script, actions);
    RunKeepsAnswered(overflow, script, start, actions);
  }

  /** Theorem. What becomes of messages that find librdkafka full depends on the strategy alone:
      only local_disk_queue ever queues one, only drop_records drops one, only
      block_calling_process blocks a caller. And the calls told :ok are those whose message
      librdkafka accepted at once, or was queued, or dropped, one of the three for each call. */
  lemma StrategyDecides(overflow: Overflow, onDisk: seq<Payload>, script: nat -> ProduceResult, r: Run)
    requires Reachable(overflow, onDisk, script, r)
    ensures r.enqueued != [] ==> overflow.LocalDiskQueue?
    ensures r.discarded != [] ==> overflow.DropRecords?
    ensures r.blocked != [] ==> overflow.BlockCallingProcess?
    ensures multiset(r.oks) + multiset(r.unsure) == multiset(r.direct) + multiset(r.enqueued) + multiset(r.discarded)
    ensures multiset(r.s.accepted) == multiset(r.direct) + multiset(r.s.drained)
  {
    ReachableInv(overflow, onDisk, script, r);
  }

  /** Theorem. librdkafka's answer decides what becomes of a call of produce. Accepted, the call is
      told :ok; refused for any reason but a full queue, it gets the error, and an unknown client's
      call gets one unasked. In none of these cases is anything queued, dropped or kept waiting. */
  lemma AnswerDecides(overflow: Overflow, onDisk: seq<Payload>, script: nat -> ProduceResult, r: Run, m: Message,
                      lookup: Lookup, call: CallResult)
    requires Reachable(overflow, onDisk, script, r)
    ensures var (t, answer) := (Apply(r, overflow, script, Produce(m, lookup, call)), script(r.s.calls));
      && t.called == r.called + [m]
      && t.s.calls == r.s.calls + (if lookup.Found? then 1 else 0)
      && t.s.accepted == r.s.accepted + (if lookup.Found? && answer.Ok? then [m] else [])
      && (lookup.Found? && answer.Ok? ==> t.oks == r.oks + [m] && t.errors == r.errors)
      && (lookup.Missing? || answer.Other? ==> t.oks == r.oks && t.errors == r.errors + [m])
      && (lookup.Missing? || !answer.QueueFull? ==>
            && t.s.items == r.s.items && t.s.sch == r.s.sch && t.s.pending == r.s.pending
            && t.enqueued == r.enqueued && t.discarded == r.discarded && t.blocked == r.blocked && t.unsure == r.unsure)
  {
    assert r.s.accepted + [] == r.s.accepted;
    hide Reachable;
  }

  /** Theorem. A full queue leaves it to the strategy. local_disk_queue appends the message to the
      queue, with a wake-up under way, and tells :ok; drop_records drops it and tells :ok;
      block_calling_process keeps the caller waiting. If the producer process does not answer, the
      call gets an error, and only local_disk_queue can have queued the message. */
  lemma FullLeavesItToStrategy(overflow: Overflow, onDisk: seq<Payload>, script: nat -> ProduceResult, r: Run,
                               m: Message, call: CallResult)
    requires Reachable(overflow, onDisk, script, r) && script(r.s.calls).QueueFull?
    ensures var t := Apply(r, overflow, script, Produce(m, Found, call));
      var queued := overflow.LocalDiskQueue? && (call.Answered? || call.handled);
      && t.s.items == r.s.items + (if queued then [Timed(m.body, m.timestamp)] else [])
      && t.enqueued == r.enqueued + (if queued then [m] else [])
      && (queued ==> t.s.pending == 1)
      && t.discarded == r.discarded + (if overflow.DropRecords? && call.Answered? then [m] else [])
      && t.blocked == r.blocked + (if overflow.BlockCallingProcess? && call.Answered? then [m] else [])
      && t.oks == r.oks + (if !overflow.BlockCallingProcess? && call.Answered? then [m] else [])
      && t.errors == r.errors + (if call.Failed? then [m] else [])
  {
    ReachableInv(overflow, onDisk, script, r);
    assert r.s.items + [] == r.s.items && r.enqueued + [] == r.enqueued && r.discarded + [] == r.discarded;
    assert r.blocked + [] == r.blocked && r.oks + [] == r.oks && r.errors + [] == r.errors;
    hide Reachable, Fifo, Accounts, Strategy;
  }

  /** Theorem. A blocked caller's message is given to librdkafka again until it is accepted, and then
      the call is told :ok, or refused for another reason than a full queue, and then it gets the
      error. Nothing is ever queued or dropped for it. */
  lemma BlockedCallerIsAnswered(overflow: Overflow, onDisk: seq<Payload>, script: nat -> ProduceResult, r: Run, i: nat)
    requires Reachable(overflow, onDisk, script, r) && i < |r.blocked|
    ensures var (t, answer, m) := (Apply(r, overflow, script, Retry(i)), script(r.s.calls), r.blocked[i]);
      && t.s.calls == r.s.calls + 1
      && t.s.accepted == r.s.accepted + (if answer.Ok? then [m] else [])
      && t.oks == r.oks + (if answer.Ok? then [m] else [])
      && t.errors == r.errors + (if answer.Other? then [m] else [])
      && t.blocked == (if answer.QueueFull? then r.blocked else r.blocked[..i] + r.blocked[i + 1..])
      && t.called == r.called && t.enqueued == r.enqueued && t.discarded == r.discarded && t.unsure == r.unsure
      && t.s.items == r.s.items && t.s.sch == r.s.sch && t.s.pending == r.s.pending
  {
    assert r.s.accepted + [] == r.s.accepted && r.oks + [] == r.oks && r.errors + [] == r.errors;
    hide Reachable;
  }

  /** Theorem. Nothing but a call of produce that finds librdkafka full puts a message into the queue,
      drops one or blocks a caller; rounds of draining and restarts answer nobody. */
  lemma OnlyFullReachesStrategy(overflow: Overflow, script: nat -> ProduceResult, r: Run, a: Action)
    requires Can(r, a) && !(a.Produce? && a.lookup.Found? && script(r.s.calls).QueueFull?)
    ensures var t := Apply(r, overflow, script, a);
      && t.enqueued == r.enqueued && t.discarded == r.discarded && |t.blocked| <= |r.blocked|
      && |t.s.items| <= |r.s.items| && t.s.items == r.s.items[|r.s.items| - |t.s.items|..]
      && (a.ConsumeQueue? || a.Restart? ==> t.oks == r.oks && t.errors == r.errors && t.blocked == r.blocked)
  {
    if a.ConsumeQueue? { RoundIsBounded(r.s.(pending := r.s.pending - 1), script); }
    hide Drained, OnOverflow;
  }

  lemma Balance(disk: multiset<Message>, oks: multiset<Message>, unsure: multiset<Message>, accepted: multiset<Message>,
                drained: multiset<Message>, direct: multiset<Message>, enqueued: multiset<Message>,
                discarded: multiset<Message>,
                processed: multiset<Message>, items: multiset<Message>, skipped: multiset<Message>)
    requires accepted == direct + drained && oks + unsure == direct + enqueued + discarded
    requires disk + enqueued == processed + items && processed == drained + skipped
    ensures disk + oks + unsure == accepted + skipped + items + discarded
  {
    forall m ensures (disk + oks + unsure)[m] == (accepted + skipped + items + discarded)[m] {
      assert (oks + unsure)[m] == (direct + enqueued + discarded)[m];
      assert (disk + enqueued)[m] == (processed + items)[m];
    }
  }

  // -------------------------------------------------------------------- rounds of draining

  lemma RoundIs(s: State, script: nat -> ProduceResult, n: nat)
    ensures var (t, outcome) := Drained(s, script, n);
      && |t.items| <= |s.items| <= |t.items| + n
      && t.items == s.items[|s.items| - |t.items|..]
      && (outcome.Completed? ==> t.items == [])
      && (outcome.Continue? ==>
            |s.items| - |t.items| == n ||
            (t.items != [] && script(s.calls + (|s.items| - |t.items|)).QueueFull? &&
              t.calls == s.calls + (|s.items| - |t.items|) + 1))
  {
    var k := DrainCount(s.items, script, s.calls, n);
    var full := k < n && k < |s.items|;
    assert k == n || k == |s.items| || script(s.calls + k).QueueFull?;
    MovedIs(s, s.items[..k], Verdicts(script, s.calls, k), s.items[k..], s.calls + k + if full then 1 else 0);
    hide Moved, IsDrainCount;
  }

  /** Theorem. A round disposes of at most 5000 messages, all from the front; it reports that it is
      completed only when the queue is empty, and a message that librdkafka had no room for stays
      at the head. */
  lemma RoundIsBounded(s: State, script: nat -> ProduceResult)
    ensures var (t, outcome) := Drained(s, script, MAX_QUEUE_PROCESS_MSG);
      && |t.items| <= |s.items| <= |t.items| + 5000
      && t.items == s.items[|s.items| - |t.items|..]
      && (outcome.Completed? ==> t.items == [])
      && (outcome.Continue? ==>
            |s.items| - |t.items| == 5000 ||
            (t.items != [] && script(s.calls + (|s.items| - |t.items|)).QueueFull? &&
              t.calls == s.calls + (|s.items| - |t.items|) + 1))
  {
    hide Drained;
    RoundIs(s, script, MAX_QUEUE_PROCESS_MSG);
  }

  ghost predicate NeverFull(script: nat -> ProduceResult) {
    forall i :: !script(i).QueueFull?
  }

  function Rounds(s: State, script: nat -> ProduceResult, n: nat): State
    decreases n
  {
    if n == 0 then s else
      var t := Rounds(s, script, n - 1);
      if t.pending > 0 then Consumed(t, script) else t
  }

  lemma LaterRound(items: seq<Payload>, n: nat)
    requires 0 < n <= |items| / MAX_QUEUE_PROCESS_MSG
    ensures MAX_QUEUE_PROCESS_MSG <= |items[MAX_QUEUE_PROCESS_MSG * (n - 1)..]|
    ensures items[MAX_QUEUE_PROCESS_MSG * (n - 1)..][MAX_QUEUE_PROCESS_MSG..] == items[MAX_QUEUE_PROCESS_MSG * n..]
  {
  }

  lemma RoundsUnfold(s: State, script: nat -> ProduceResult, n: nat)
    ensures n == 0 ==> Rounds(s, script, n) == s && s.items[0..] == s.items
    ensures n > 0 && Rounds(s, script, n - 1).pending > 0 ==>
      Rounds(s, script, n) == Consumed(Rounds(s, script, n - 1), script)
  {
    hide Consumed;
  }

  lemma {:induction false} RoundsSoFar(s: State, script: nat -> ProduceResult, n: nat)
    requires NeverFull(script) && s.sch && s.pending == 1 && n <= |s.items| / MAX_QUEUE_PROCESS_MSG
    ensures var t := Rounds(s, script, n); t.sch && t.pending == 1 && t.items == s.items[MAX_QUEUE_PROCESS_MSG * n..]
  {
    hide NeverFull, Consumed, Rounds;
    RoundsUnfold(s, script, n);
    if n == 0 {
    } else {
      RoundsSoFar(s, script, n - 1);
      LaterRound(s.items, n);
      RoundWithRoom(Rounds(s, script, n - 1), script);
    }
  }

  lemma RoundWithRoom(t: State, script: nat -> ProduceResult)
    requires NeverFull(script) && t.pending > 0
    ensures var u := Consumed(t, script);
      if |t.items| < MAX_QUEUE_PROCESS_MSG then !u.sch && u.items == [] && u.pending == t.pending - 1
      else u.sch && u.pending == t.pending && u.items == t.items[MAX_QUEUE_PROCESS_MSG..]
  {
    var k := DrainCount(t.items, script, t.calls, MAX_QUEUE_PROCESS_MSG);
    assert IsDrainCount(t.items, script, t.calls, MAX_QUEUE_PROCESS_MSG, k);
    assert !script(t.calls + k).QueueFull?;
  }

  /** Theorem. If librdkafka always has room and nothing more is enqueued, a queue of length L is
      reported completed in round floor(L / 5000) + 1 and in no earlier one. */
  lemma RoundsToCompletion(s: State, script: nat -> ProduceResult, n: nat)
    requires NeverFull(script) && s.sch && s.pending == 1
    ensures var needed := |s.items| / 5000 + 1;
      && (n < needed ==> Rounds(s, script, n).sch)
      && (n == needed ==>
            !Rounds(s, script, n).sch && Rounds(s, script, n).items == [] && Rounds(s, script, n).pending == 0)
  {
    hide Consumed, NeverFull, Drained;
    var full := |s.items| / MAX_QUEUE_PROCESS_MSG;
    if n <= full {
      RoundsSoFar(s, script, n);
    } else if n == full + 1 {
      RoundsSoFar(s, script, full);
      RoundWithRoom(Rounds(s, script, full), script);
    }
  }
}
