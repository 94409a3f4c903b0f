/**
  One partition consumer as a process (lib/exrdkafka/consumer.ex): a mailbox, timers, and
  the message loop cut at the points where other processes can be heard - the look at the
  mailbox, the callback, the offset store. Events are what can happen next; `Step` is what
  the code does then.
 */
module ConsumerProcess {
  import opened Prelude
  import opened Consumer
  import opened QueuePoll

  /** The callback module's own state. */
  type Cb(==, !new)

  datatype Mode = OneByOne | Batch
  datatype Tick = PollEvents | ProcessMessages
  datatype Mail = Timer(tick: Tick) | Request(triple: Triple) | Unexpected

  datatype Phase =
    | Idle
    | Receiving(rest: seq<Offset>, backoff: nat, cb: Cb)
    | Calling(rest: seq<Offset>, backoff: nat, cb: Cb)
    | Storing(rest: seq<Offset>, cb: Cb)
    | Gone(normal: bool)

  datatype Proc = Proc(mode: Mode, phase: Phase, cb: Cb, messages: seq<Offset>, lastOffset: int,
                       timers: seq<Tick>, mailbox: seq<Mail>)
  {
    predicate Alive() { !phase.Gone? }
  }

  datatype Event =
    | Deliver(mail: Mail)
    | Fire(timer: nat)
    | Take(polled: Polled)
    | Receive
    | Return(reply: Reply<Cb>)
    | Store(ok: bool)
    | Crash

  datatype Out =
    | SendStopped(from: nat, tag: nat)
    | Exit(normal: bool)
    | Polling
    | Start(batch: seq<Offset>)
    | StoreOffset(offset: int)

  function Init(mode: Mode, cb: Cb): Proc {
    Proc(mode, Idle, cb, [], -1, [PollEvents], [])
  }

  // ------------------------------------------------------------------- handlers

  /** The NIF reports the last message's offset, and -1 for an empty batch. */
  predicate PolledOk(polled: Polled) {
    polled.last == if polled.messages == [] then -1 else polled.messages[|polled.messages| - 1]
  }

  predicate Enabled(p: Proc, e: Event) {
    match e
    case Deliver(mail) => !mail.Timer?
    case Fire(i) => p.Alive() && i < |p.timers|
    case Take(polled) => p.phase.Idle? && p.mailbox != [] && PolledOk(polled)
    case Receive => p.phase.Receiving?
    case Return(_) => p.phase.Calling?
    case Store(_) => p.phase.Storing? && p.phase.rest != []
    case Crash => p.Alive()
  }

  function Die(p: Proc, normal: bool): Proc {
    p.(phase := Gone(normal), timers := [], mailbox := [])
  }

  /** handle_stop followed by a normal exit. */
  function Stop(p: Proc, from: nat, tag: nat): (Proc, seq<Out>) {
    (Die(p, true), [SendStopped(from, tag), Exit(true)])
  }

  /** The messages are done: back to the main loop, polling again at once. */
  function Finish(p: Proc, cb: Cb): Proc {
    p.(phase := Idle, cb := cb, messages := [], lastOffset := -1, timers := p.timers + [PollEvents])
  }

  /** process_events, up to the first point where it can be interrupted. */
  function Begin(p: Proc): (Proc, seq<Out>) {
    match p.mode
    case Batch => (p.(phase := Calling(p.messages, 0, p.cb)), [Start(p.messages)])
    case OneByOne =>
      if p.messages == [] then (Finish(p, p.cb), []) else (p.(phase := Receiving(p.messages, 0, p.cb)), [])
  }

  function HandleInfo(p: Proc, mail: Mail, polled: Polled): (Proc, seq<Out>) {
    match mail
    case Timer(PollEvents) =>
      if polled.messages == [] then (p.(timers := p.timers + [PollEvents]), [Polling])
      else
        (p.(messages := polled.messages, lastOffset := polled.last, timers := p.timers + [ProcessMessages]), [Polling])
    case Timer(ProcessMessages) => Begin(p)
    case Request(StopRequest(from, tag)) => Stop(p, from, tag)
    case Request(ForeignTriple) => (p, [])
    case Unexpected => (p, [])
  }

  /** Where the first 3-tuple waits in the mailbox; its length when there is none. */
  function FirstTriple(mailbox: seq<Mail>): (i: nat)
    ensures i <= |mailbox|
    ensures i < |mailbox| ==> mailbox[i].Request?
    ensures forall k :: 0 <= k < i ==> !mailbox[k].Request?
  {
    if mailbox == [] || mailbox[0].Request? then 0 else 1 + FirstTriple(mailbox[1..])
  }

  function RecvStop(p: Proc): (Proc, seq<Out>)
    requires p.phase.Receiving?
  {
    var i := FirstTriple(p.mailbox);
    if i < |p.mailbox| then
      match p.mailbox[i].triple
      case StopRequest(from, tag) => Stop(p, from, tag)
      case ForeignTriple => (Die(p, false), [Exit(false)])
    else
      var next := if p.mode == Batch then ExponentialBackoff(p.phase.backoff).next else p.phase.backoff;
      (p.(phase := Calling(p.phase.rest, next, p.phase.cb)),
       [Start(if p.mode == Batch then p.phase.rest else p.phase.rest[..if p.phase.rest == [] then 0 else 1])])
  }

  function CallbackReturned(p: Proc, reply: Reply<Cb>): Proc
    requires p.phase.Calling?
  {
    var b := p.phase.backoff;
    var retry := if p.mode == Batch then b else ExponentialBackoff(b).next;
    match reply
    case Okay(cb) => p.(phase := Storing(p.phase.rest, cb))
    case Failed(cb) => p.(phase := Receiving(p.phase.rest, retry, cb))
    case Malformed => p.(phase := Receiving(p.phase.rest, retry, p.phase.cb))
  }

  function OffsetStored(p: Proc): (Proc, seq<Out>)
    requires p.phase.Storing? && p.phase.rest != []
  {
    match p.mode
    case Batch => (Finish(p, p.phase.cb), [StoreOffset(p.lastOffset)])
    case OneByOne =>
      var rest := p.phase.rest[1..];
      (if rest == [] then Finish(p, p.phase.cb) else p.(phase := Receiving(rest, 0, p.phase.cb)),
       [StoreOffset(p.phase.rest[0])])
  }

  function Step(p: Proc, e: Event): (Proc, seq<Out>)
    requires Enabled(p, e)
  {
    match e
    case Deliver(mail) => (if p.Alive() then p.(mailbox := p.mailbox + [mail]) else p, [])
    case Fire(i) => (p.(timers := p.timers[..i] + p.timers[i + 1..], mailbox := p.mailbox + [Timer(p.timers[i])]), [])
    case Take(polled) => HandleInfo(p.(mailbox := p.mailbox[1..]), p.mailbox[0], polled)
    case Receive => RecvStop(p)
    case Return(reply) => (CallbackReturned(p, reply), [])
    case Store(true) => OffsetStored(p)
    case Store(false) => (Die(p, false), [Exit(false)])
    case Crash => (Die(p, false), [Exit(false)])
  }

  // ------------------------------------------------------------------------ runs

  ghost predicate IsRun(p: Proc, events: seq<Event>)
    decreases |events|
  {
    events == [] || (Enabled(p, events[0]) && IsRun(Step(p, events[0]).0, events[1..]))
  }

  ghost function After(p: Proc, events: seq<Event>): Proc
    requires IsRun(p, events)
    decreases |events|
  {
    if events == [] then p else After(Step(p, events[0]).0, events[1..])
  }

  ghost function Outputs(p: Proc, events: seq<Event>): seq<Out>
    requires IsRun(p, events)
    decreases |events|
  {
    if events == [] then [] else Step(p, events[0]).1 + Outputs(Step(p, events[0]).0, events[1..])
  }

  // ------------------------------------------------------------- scheduling invariant

  /** The scheduled work in flight: timers running and timer messages waiting, in no
      particular order. */
  function Waiting(mailbox: seq<Mail>): seq<Tick> {
    if mailbox == [] then []
    else (if mailbox[0].Timer? then [mailbox[0].tick] else []) + Waiting(mailbox[1..])
  }

  function Pending(p: Proc): seq<Tick> {
    p.timers + Waiting(p.mailbox)
  }

  /** Between two handlers exactly one piece of work is scheduled, and it is to process
      messages exactly when there are some; inside the loop nothing is scheduled. */
  ghost predicate Scheduled(p: Proc) {
    match p.phase
    case Gone(_) => Pending(p) == []
    case Idle => Pending(p) == [if p.messages == [] then PollEvents else ProcessMessages]
    case _ => Pending(p) == [] && p.messages != []
  }

  /** What the loop still holds is a tail of the polled messages, all of them in batch mode. */
  ghost predicate LoopOk(p: Proc) {
    && (p.messages != [] ==> p.lastOffset == p.messages[|p.messages| - 1])
    && (p.phase.Receiving? || p.phase.Calling? || p.phase.Storing? ==>
          && p.phase.rest != []
          && |p.phase.rest| <= |p.messages|
          && p.phase.rest == p.messages[|p.messages| - |p.phase.rest|..]
          && (p.mode == Batch ==> p.phase.rest == p.messages))
  }

  ghost predicate Inv(p: Proc) {
    Scheduled(p) && LoopOk(p)
  }

  lemma {:induction false} WaitingAppend(a: seq<Mail>, b: seq<Mail>)
    ensures Waiting(a + b) == Waiting(a) + Waiting(b)
  {
    if a == [] {
      assert a + b == b;
    } else {
      assert (a + b)[0] == a[0] && (a + b)[1..] == a[1..] + b;
      WaitingAppend(a[1..], b);
    }
  }

  lemma WaitingOne(mail: Mail)
    ensures Waiting([mail]) == if mail.Timer? then [mail.tick] else []
  {
    assert [mail][1..] == [];
  }

  lemma TakeKeepsInv(p: Proc, polled: Polled)
    requires Inv(p) && Enabled(p, Take(polled))
    ensures Inv(Step(p, Take(polled)).0)
  {
    var mail, p' := p.mailbox[0], Step(p, Take(polled)).0;
    if mail.Timer? {
      TakeTimerKeepsInv(p, mail.tick, polled);
    } else if p'.Alive() {
      assert Waiting(p.mailbox) == [] + Waiting(p.mailbox[1..]);
      assert Pending(p') == Pending(p);
    }
  }

  /** A timer message at the head of the mailbox is the only work in flight. */
  lemma OnlyWork(p: Proc)
    requires Inv(p) && p.phase.Idle? && p.mailbox != [] && p.mailbox[0].Timer?
    ensures p.timers == [] && Waiting(p.mailbox[1..]) == []
    ensures p.mailbox[0].tick == if p.messages == [] then PollEvents else ProcessMessages
  {
    var tick, rest := p.mailbox[0].tick, p.mailbox[1..];
    assert Waiting(p.mailbox) == [tick] + Waiting(rest);
    assert Pending(p) == p.timers + ([tick] + Waiting(rest));
    assert |Pending(p)| == 1 && p.timers == [] && Waiting(rest) == [];
    assert tick == Pending(p)[0];
  }

  lemma TakeTimerKeepsInv(p: Proc, tick: Tick, polled: Polled)
    requires Inv(p) && Enabled(p, Take(polled)) && p.mailbox[0] == Timer(tick)
    ensures Inv(Step(p, Take(polled)).0)
  {
    OnlyWork(p);
    var p' := Step(p, Take(polled)).0;
    assert p'.mailbox == p.mailbox[1..] && |p'.timers| == if p'.phase.Idle? then 1 else 0;
    hide Waiting;
  }

  lemma ReceiveKeepsInv(p: Proc)
    requires Inv(p) && Enabled(p, Receive)
    ensures Inv(Step(p, Receive).0)
  {
    var p' := RecvStop(p).0;
    assert Step(p, Receive).0 == p';
    hide Step, Waiting, ExponentialBackoff;
    if p'.Alive() {
      assert Pending(p') == Pending(p);
    }
  }

  lemma ReturnKeepsInv(p: Proc, reply: Reply<Cb>)
    requires Inv(p) && Enabled(p, Return(reply))
    ensures Inv(Step(p, Return(reply)).0)
  {
    assert Step(p, Return(reply)).0 == CallbackReturned(p, reply);
    hide Step, Waiting, ExponentialBackoff;
    assert Pending(CallbackReturned(p, reply)) == Pending(p);
  }

  lemma StoreKeepsInv(p: Proc, ok: bool)
    requires Inv(p) && Enabled(p, Store(ok))
    ensures Inv(Step(p, Store(ok)).0)
  {
    var rest, p' := p.phase.rest, Step(p, Store(ok)).0;
    if p'.phase.Receiving? {
      assert Pending(p') == Pending(p);
      assert rest[1..] == p.messages[|p.messages| - |rest[1..]|..];
    } else if p'.phase.Idle? {
      assert Pending(p') == [PollEvents] by { assert p.timers == [] && Waiting(p.mailbox) == []; }
    }
  }

  lemma DeliverKeepsInv(p: Proc, mail: Mail)
    requires Inv(p) && Enabled(p, Deliver(mail))
    ensures Inv(Step(p, Deliver(mail)).0)
  {
    WaitingAppend(p.mailbox, [mail]);
    WaitingOne(mail);
    hide Waiting;
    if p.Alive() { assert Waiting(p.mailbox) + [] == Waiting(p.mailbox); }
  }

  lemma FireKeepsInv(p: Proc, i: nat)
    requires Inv(p) && Enabled(p, Fire(i))
    ensures Inv(Step(p, Fire(i)).0)
  {
    WaitingAppend(p.mailbox, [Timer(p.timers[i])]);
    WaitingOne(Timer(p.timers[i]));
    hide Waiting;
    assert p.timers[i] == Pending(p)[i];
  }

  lemma StepKeepsInv(p: Proc, e: Event)
    requires Inv(p) && Enabled(p, e)
    ensures Inv(Step(p, e).0)
  {
    hide Step, Inv;
    match e
    case Deliver(mail) => DeliverKeepsInv(p, mail);
    case Fire(i) => FireKeepsInv(p, i);
    case Take(polled) => TakeKeepsInv(p, polled);
    case Receive => ReceiveKeepsInv(p);
    case Return(reply) => ReturnKeepsInv(p, reply);
    case Store(ok) => StoreKeepsInv(p, ok);
    case Crash => CrashKeepsInv(p);
  }

  lemma CrashKeepsInv(p: Proc)
    requires Inv(p) && p.Alive()
    ensures Inv(Step(p, Crash).0)
  {
  }

  lemma {:induction false} RunKeepsInv(p: Proc, events: seq<Event>)
    requires Inv(p) && IsRun(p, events)
    ensures Inv(After(p, events))
    decreases |events|
  {
    if events == [] {
    } else {
      StepKeepsInv(p, events[0]);
      RunKeepsInv(Step(p, events[0]).0, events[1..]);
    }
  }

  /** Theorem. However a consumer is used, the scheduling invariant holds all along; in
      particular messages still unprocessed are never overwritten by a poll. */
  lemma SchedulingInvariant(mode: Mode, cb: Cb, events: seq<Event>)
    requires IsRun(Init(mode, cb), events)
    ensures var p := After(Init(mode, cb), events);
      && Inv(p)
      && (p.phase.Idle? && p.mailbox != [] && p.mailbox[0] == Timer(PollEvents) ==> p.messages == [])
  {
    assert Waiting([]) == [];
    RunKeepsInv(Init(mode, cb), events);
    var p := After(Init(mode, cb), events);
    if p.phase.Idle? && p.mailbox != [] && p.mailbox[0] == Timer(PollEvents) {
      assert Waiting(p.mailbox)[0] == PollEvents;
      assert Pending(p)[|p.timers|] == PollEvents;
    }
  }

  /** Answers other than {:ok, _} in a row, since the messages were begun or a success. */
  function FailuresInRow(events: seq<Event>): nat
    decreases |events|
  {
    if events == [] then 0
    else
      var before := FailuresInRow(events[..|events| - 1]);
      match events[|events| - 1]
      case Take(_) => 0
      case Return(reply) => if reply.Okay? then 0 else before + 1
      case _ => before
  }

  /** In the loop the backoff is the delay after `n` failures in a row; in batch mode, between a
      failure and the look at the mailbox, still the one before. */
  ghost predicate BackoffIs(p: Proc, n: nat) {
    && (p.phase.Calling? ==> p.phase.backoff == DelayAfter(n))
    && (p.phase.Storing? ==> n == 0)
    && (p.phase.Receiving? ==>
          if p.mode == Batch then n > 0 && p.phase.backoff == DelayAfter(n - 1) else p.phase.backoff == DelayAfter(n))
  }

  lemma StepKeepsBackoff(p: Proc, e: Event, n: nat)
    requires Enabled(p, e) && BackoffIs(p, n)
    ensures BackoffIs(Step(p, e).0, if e.Take? then 0 else if !e.Return? then n else if e.reply.Okay? then 0 else n + 1)
  {
    BackoffFollowsFailures(n);
    if n > 0 { BackoffFollowsFailures(n - 1); }
    hide ExponentialBackoff, DelayAfter, FirstTriple;
    assert DelayAfter(0) == 0 by { NoDelayAtFirst(); }
  }

  lemma NoDelayAtFirst()
    ensures DelayAfter(0) == 0
  {
  }

  lemma {:induction false} RunKeepsBackoff(mode: Mode, cb: Cb, events: seq<Event>)
    requires IsRun(Init(mode, cb), events)
    ensures BackoffIs(After(Init(mode, cb), events), FailuresInRow(events))
    decreases |events|
  {
    if events == [] {
    } else {
      hide Step, Enabled, BackoffIs;
      var rest, e := events[..|events| - 1], events[|events| - 1];
      assert rest + [e] == events && [e][1..] == [];
      RunStops(Init(mode, cb), rest, [e]);
      RunKeepsBackoff(mode, cb, rest);
      var p := After(Init(mode, cb), rest);
      StepKeepsBackoff(p, e, FailuresInRow(rest));
    }
  }

  /** A run can be looked at in two parts. */
  lemma {:induction false} RunStops(p: Proc, a: seq<Event>, b: seq<Event>)
    requires IsRun(p, a + b)
    ensures IsRun(p, a) && IsRun(After(p, a), b) && After(p, a + b) == After(After(p, a), b)
    decreases |a|
  {
    hide Step, Enabled;
    if a == [] {
      assert a + b == b;
    } else {
      assert (a + b)[0] == a[0] && (a + b)[1..] == a[1..] + b;
      RunStops(Step(p, a[0]).0, a[1..], b);
    }
  }

  /** Theorem. In every run the backoff in force at the callback is 0, 500, 1000, 2000 or 4000 ms, by
      the number of failures in a row; in batch mode it is raised after the look at the mailbox. */
  lemma BackoffCountsFailures(mode: Mode, cb: Cb, events: seq<Event>)
    requires IsRun(Init(mode, cb), events)
    ensures var (p, n) := (After(Init(mode, cb), events), FailuresInRow(events));
      var delays := [0, 500, 1000, 2000, 4000];
      && (p.phase.Calling? ==> p.phase.backoff == delays[if n < 4 then n else 4])
      && (p.phase.Receiving? && mode == OneByOne ==> p.phase.backoff == delays[if n < 4 then n else 4])
      && (p.phase.Receiving? && mode == Batch ==> n > 0 && p.phase.backoff == delays[if n - 1 < 4 then n - 1 else 4])
  {
    RunKeepsBackoff(mode, cb, events);
    RunKeepsMode(Init(mode, cb), events);
    hide Step, Enabled, IsRun, After, Init;
    assert Init(mode, cb).mode == mode by { ModeAtFirst(mode, cb); }
  }

  lemma ModeAtFirst(mode: Mode, cb: Cb)
    ensures Init(mode, cb).mode == mode
  {
  }

  lemma {:induction false} RunKeepsMode(p: Proc, events: seq<Event>)
    requires IsRun(p, events)
    ensures After(p, events).mode == p.mode
    decreases |events|
  {
    if events == [] {
    } else {
      assert Step(p, events[0]).0.mode == p.mode;
      RunKeepsMode(Step(p, events[0]).0, events[1..]);
    }
  }

  /** The state the last well-formed reply carried, or the one at the start. */
  function StateNow(cb: Cb, events: seq<Event>): Cb
    decreases |events|
  {
    if events == [] then cb
    else
      var e := events[|events| - 1];
      if e.Return? && !e.reply.Malformed? then e.reply.state else StateNow(cb, events[..|events| - 1])
  }

  /** The callback state the process goes on with. */
  predicate GoesOnWith(p: Proc, cb: Cb) {
    match p.phase
    case Idle => p.cb == cb
    case Receiving(_, _, own) => own == cb
    case Calling(_, _, own) => own == cb
    case Storing(_, own) => own == cb
    case Gone(_) => true
  }

  lemma StepKeepsState(p: Proc, e: Event, cb: Cb)
    requires Enabled(p, e) && GoesOnWith(p, cb)
    ensures GoesOnWith(Step(p, e).0, if e.Return? && !e.reply.Malformed? then e.reply.state else cb)
  {
    hide ExponentialBackoff, FirstTriple;
  }

  /** Theorem. In every run the callback is called with, and the process keeps, the state of the last
      well-formed reply, failures included, or the one the consumer was started with. */
  lemma {:induction false} CallbackStateIsLast(mode: Mode, cb: Cb, events: seq<Event>)
    requires IsRun(Init(mode, cb), events)
    ensures GoesOnWith(After(Init(mode, cb), events), StateNow(cb, events))
    decreases |events|
  {
    if events == [] {
    } else {
      hide Step, Enabled, GoesOnWith;
      var rest, e := events[..|events| - 1], events[|events| - 1];
      assert rest + [e] == events && [e][1..] == [];
      RunStops(Init(mode, cb), rest, [e]);
      CallbackStateIsLast(mode, cb, rest);
      StepKeepsState(After(Init(mode, cb), rest), e, StateNow(cb, rest));
    }
  }

  // -------------------------------------------------------------- what a callback is given

  /** The step that enters the callback hands it, in batch mode, all the messages polled and, one
      by one, the first message not yet done; no other step starts a callback. */
  ghost predicate GivesBatch(p: Proc, p': Proc, outs: seq<Out>) {
    && (p'.phase.Calling? && !p.phase.Calling? ==>
          p'.phase.rest != [] && outs == [Start(if p.mode == Batch then p'.messages else [p'.phase.rest[0]])])
    && (!p'.phase.Calling? || p.phase.Calling? ==> forall o :: o in outs ==> !o.Start?)
    && (p'.phase.Calling? && p.phase.Calling? ==> p'.phase == p.phase && p'.messages == p.messages)
    && p'.mode == p.mode
  }

  lemma ReceiveGivesBatch(p: Proc)
    requires Inv(p) && p.phase.Receiving?
    ensures GivesBatch(p, RecvStop(p).0, RecvStop(p).1)
  {
    assert p.phase.rest[..1] == [p.phase.rest[0]];
    hide FirstTriple;
  }

  lemma TakeGivesBatch(p: Proc, polled: Polled)
    requires Inv(p) && Enabled(p, Take(polled))
    ensures GivesBatch(p, Step(p, Take(polled)).0, Step(p, Take(polled)).1)
  {
    hide Scheduled, Pending, Waiting;
    TakeKeepsInv(p, polled);
  }

  lemma StepGivesBatch(p: Proc, e: Event)
    requires Inv(p) && Enabled(p, e)
    ensures GivesBatch(p, Step(p, e).0, Step(p, e).1)
  {
    match e
    case Take(polled) => TakeGivesBatch(p, polled);
    case Receive => ReceiveGivesBatch(p);
    case _ => OtherGivesBatch(p, e);
  }

  lemma OtherGivesBatch(p: Proc, e: Event)
    requires Enabled(p, e) && !e.Take? && !e.Receive?
    ensures GivesBatch(p, Step(p, e).0, Step(p, e).1)
  {
    hide RecvStop, HandleInfo;
  }

  /** Theorem. The step that enters the callback hands it, in batch mode, all the messages polled
      and, one by one, the first message not yet done; no other step starts a callback. */
  lemma CallbackIsGiven(p: Proc, e: Event)
    requires Inv(p) && Enabled(p, e)
    ensures var (p', outs) := Step(p, e);
      if p'.phase.Calling? && !p.phase.Calling? then
        p'.phase.rest != [] && outs == [Start(if p.mode == Batch then p'.messages else [p'.phase.rest[0]])]
      else forall o :: o in outs ==> !o.Start?
  {
    StepGivesBatch(p, e);
    hide Inv, Step, Enabled;
  }

  /** The batch of the last callback started. */
  function LastStart(outs: seq<Out>): Option<seq<Offset>>
    decreases |outs|
  {
    if outs == [] then None
    else if outs[|outs| - 1].Start? then Some(outs[|outs| - 1].batch)
    else LastStart(outs[..|outs| - 1])
  }

  lemma {:induction false} NoStartIsNoChange(a: seq<Out>, b: seq<Out>)
    requires forall o :: o in b ==> !o.Start?
    ensures LastStart(a + b) == LastStart(a)
    decreases |b|
  {
    if b == [] {
      assert a + b == a;
    } else {
      assert (a + b)[..|a + b| - 1] == a + b[..|b| - 1];
      NoStartIsNoChange(a, b[..|b| - 1]);
    }
  }

  /** While a callback runs, the last one started is it, and this is what it was given. */
  ghost predicate InCallback(p: Proc, outs: seq<Out>) {
    p.phase.Calling? && p.phase.rest != [] ==>
      LastStart(outs) == Some(if p.mode == Batch then p.messages else [p.phase.rest[0]])
  }

  lemma StepKeepsCallback(p: Proc, p': Proc, before: seq<Out>, outs: seq<Out>)
    requires GivesBatch(p, p', outs) && InCallback(p, before)
    ensures InCallback(p', before + outs)
  {
    if p'.phase.Calling? && p.phase.Calling? {
      NoStartIsNoChange(before, outs);
    } else if p'.phase.Calling? {
      assert (before + outs)[|before + outs| - 1] == outs[0];
    }
  }

  lemma {:induction false} RunKeepsCallback(p: Proc, before: seq<Out>, events: seq<Event>)
    requires Inv(p) && IsRun(p, events) && InCallback(p, before)
    ensures InCallback(After(p, events), before + Outputs(p, events)) && After(p, events).mode == p.mode
    decreases |events|
  {
    hide Inv, Step, Enabled, InCallback;
    if events == [] {
      assert before + [] == before;
    } else {
      var (p', outs) := Step(p, events[0]);
      StepKeepsInv(p, events[0]);
      StepGivesBatch(p, events[0]);
      StepKeepsCallback(p, p', before, outs);
      RunKeepsCallback(p', before + outs, events[1..]);
      assert (before + outs) + Outputs(p', events[1..]) == before + (outs + Outputs(p', events[1..]));
    }
  }

  lemma InitIsFine(mode: Mode, cb: Cb)
    ensures Inv(Init(mode, cb)) && InCallback(Init(mode, cb), []) && Init(mode, cb).mode == mode
  {
    assert Waiting([]) == [];
  }

  lemma CallingHoldsSome(p: Proc)
    requires Inv(p) && p.phase.Calling?
    ensures p.phase.rest != []
  {
  }

  /** Theorem. In every run, what a callback in progress is to settle is what it was started with:
      the whole batch polled, or the first message not yet done. */
  lemma CallbackSettlesWhatItWasGiven(mode: Mode, cb: Cb, events: seq<Event>)
    requires IsRun(Init(mode, cb), events) && After(Init(mode, cb), events).phase.Calling?
    ensures var p := After(Init(mode, cb), events);
      && p.phase.rest != []
      && LastStart(Outputs(Init(mode, cb), events)) == Some(if mode == Batch then p.messages else [p.phase.rest[0]])
  {
    hide Inv, Step, Enabled, Outputs, Init;
    InitIsFine(mode, cb);
    RunKeepsInv(Init(mode, cb), events);
    CallingHoldsSome(After(Init(mode, cb), events));
    RunKeepsCallback(Init(mode, cb), [], events);
    assert [] + Outputs(Init(mode, cb), events) == Outputs(Init(mode, cb), events);
  }

  /** Theorem. A consumer ends normally exactly when it comes upon a stop request, and abnormally
      exactly when it crashes, an offset cannot be stored or, in the loop, another 3-tuple is the
      first one in its mailbox. */
  lemma WhyConsumersEnd(p: Proc, e: Event)
    requires Enabled(p, e) && p.Alive()
    ensures var (end, i) := (Step(p, e).0.phase, FirstTriple(p.mailbox));
      && (end == Gone(true) <==>
            || (e.Take? && IsStop(p.mailbox[0]))
            || (e.Receive? && i < |p.mailbox| && IsStop(p.mailbox[i])))
      && (end == Gone(false) <==>
            || e.Crash? || e == Store(false)
            || (e.Receive? && i < |p.mailbox| && p.mailbox[i] == Request(ForeignTriple)))
  {
  }

  // --------------------------------------------------------------- stop handshake

  predicate IsStop(mail: Mail) {
    mail.Request? && mail.triple.StopRequest?
  }

  predicate StopWaiting(p: Proc) {
    exists i :: 0 <= i < |p.mailbox| && IsStop(p.mailbox[i])
  }

  /** A step that leaves the consumer alive loses no stop request, and one that ends it
      normally answers exactly one: the next message, or the first 3-tuple in the mailbox. */
  lemma StopIsKeptOrAnswered(p: Proc, e: Event)
    requires Enabled(p, e) && p.Alive()
    ensures var (p', outs) := Step(p, e);
      && (p'.Alive() ==> (forall m :: m in p.mailbox && IsStop(m) ==> m in p'.mailbox)
                         && forall o :: o in outs ==> !o.SendStopped? && !o.Exit?)
      && (p'.phase == Gone(true) ==>
            exists m :: m in p.mailbox && IsStop(m) && outs == [SendStopped(m.triple.from, m.triple.tag), Exit(true)])
      && (p'.phase == Gone(false) ==> outs == [Exit(false)])
  {
    var (p', outs) := Step(p, e);
    match e
    case Take(polled) =>
      assert p.mailbox == [p.mailbox[0]] + p.mailbox[1..];
      if IsStop(p.mailbox[0]) { assert p.mailbox[0] in p.mailbox; }
    case Receive =>
      var i := FirstTriple(p.mailbox);
      if i < |p.mailbox| && IsStop(p.mailbox[i]) { assert p.mailbox[i] in p.mailbox; }
    case _ =>
  }

  /** Nothing comes after a `:stopped` reply but the exit itself. */
  ghost predicate StopIsLast(outs: seq<Out>) {
    forall i :: 0 <= i < |outs| && outs[i].SendStopped? ==> outs[i + 1..] == [Exit(true)]
  }

  lemma {:induction false} GoneIsSilent(p: Proc, events: seq<Event>)
    requires !p.Alive() && IsRun(p, events)
    ensures Outputs(p, events) == [] && After(p, events) == p
    decreases |events|
  {
    if events == [] {
    } else {
      GoneIsSilent(Step(p, events[0]).0, events[1..]);
    }
  }

  /** Theorem. A consumer answers at most one stop request, one it was really sent, and
      after the answer it never polls, calls back or stores again. */
  lemma {:induction false} StopHandshake(p: Proc, events: seq<Event>)
    requires IsRun(p, events)
    ensures StopIsLast(Outputs(p, events))
    ensures forall o :: o in Outputs(p, events) && o.SendStopped? ==>
      var ask := Request(StopRequest(o.from, o.tag)); ask in p.mailbox || Deliver(ask) in events
    decreases |events|
  {
    if events == [] {
    } else if !p.Alive() {
      GoneIsSilent(p, events);
    } else {
      hide Step, Enabled, StopIsLast, IsStop;
      var (p', outs) := Step(p, events[0]);
      var rest := Outputs(p', events[1..]);
      StopIsKeptOrAnswered(p, events[0]);
      if p'.Alive() {
        StopHandshake(p', events[1..]);
        StillLast(outs, rest);
        forall o | o in outs + rest && o.SendStopped?
          ensures var ask := Request(StopRequest(o.from, o.tag)); ask in p.mailbox || Deliver(ask) in events
        {
          AskedBefore(p, events, Request(StopRequest(o.from, o.tag)));
        }
      } else {
        GoneIsSilent(p', events[1..]);
        assert outs + rest == outs;
        AnswerIsLast(outs);
      }
    }
  }

  lemma StillLast(outs: seq<Out>, rest: seq<Out>)
    requires StopIsLast(rest) && forall o :: o in outs ==> !o.SendStopped?
    ensures StopIsLast(outs + rest)
  {
    forall i | 0 <= i < |outs + rest| && (outs + rest)[i].SendStopped? ensures (outs + rest)[i + 1..] == [Exit(true)] {
      assert i >= |outs| && (outs + rest)[i + 1..] == rest[i - |outs| + 1..];
    }
  }

  lemma AnswerIsLast(outs: seq<Out>)
    requires outs == [Exit(false)] || exists from: nat, tag: nat :: outs == [SendStopped(from, tag), Exit(true)]
    ensures StopIsLast(outs)
  {
  }

  lemma AskedBefore(p: Proc, events: seq<Event>, ask: Mail)
    requires events != [] && Enabled(p, events[0]) && IsStop(ask)
    requires ask in Step(p, events[0]).0.mailbox || Deliver(ask) in events[1..]
    ensures ask in p.mailbox || Deliver(ask) in events
  {
    if ask in Step(p, events[0]).0.mailbox { NewStopWasDelivered(p, events[0], ask); }
  }

  lemma NewStopWasDelivered(p: Proc, e: Event, m: Mail)
    requires Enabled(p, e) && IsStop(m) && m in Step(p, e).0.mailbox
    ensures m in p.mailbox || e == Deliver(m)
  {
  }

  function Starts(outs: seq<Out>): nat {
    if outs == [] then 0 else (if outs[0].Start? then 1 else 0) + Starts(outs[1..])
  }

  lemma {:induction false} StartsAppend(a: seq<Out>, b: seq<Out>)
    ensures Starts(a + b) == Starts(a) + Starts(b)
  {
    if a == [] {
      assert a + b == b;
    } else {
      assert (a + b)[0] == a[0] && (a + b)[1..] == a[1..] + b;
      StartsAppend(a[1..], b);
    }
  }

  lemma {:induction false} NoStarts(outs: seq<Out>)
    requires forall o :: o in outs ==> !o.Start?
    ensures Starts(outs) == 0
  {
    if outs == [] {
    } else {
      NoStarts(outs[1..]);
    }
  }

  /** Is there a process_messages message ahead of the first stop request? */
  predicate ProcessBeforeStop(mailbox: seq<Mail>) {
    mailbox != [] && !IsStop(mailbox[0]) && (mailbox[0] == Timer(ProcessMessages) || ProcessBeforeStop(mailbox[1..]))
  }

  /** How many more callbacks a consumer with a stop request in its mailbox can start. */
  function CallsLeft(p: Proc): nat {
    if p.mode == Batch && p.phase.Idle? && ProcessBeforeStop(p.mailbox) then 1 else 0
  }

  lemma {:induction false} LateMailIsBehindStop(mailbox: seq<Mail>, mail: Mail)
    requires exists i :: 0 <= i < |mailbox| && IsStop(mailbox[i])
    ensures ProcessBeforeStop(mailbox + [mail]) == ProcessBeforeStop(mailbox)
  {
    assert (mailbox + [mail])[0] == mailbox[0];
    if IsStop(mailbox[0]) {
    } else {
      assert (mailbox + [mail])[1..] == mailbox[1..] + [mail];
      LateMailIsBehindStop(mailbox[1..], mail);
    }
  }

  lemma {:induction false} ProcessBeforeStopIsWaiting(mailbox: seq<Mail>)
    requires ProcessBeforeStop(mailbox)
    ensures ProcessMessages in Waiting(mailbox)
  {
    if mailbox[0] == Timer(ProcessMessages) {
    } else {
      ProcessBeforeStopIsWaiting(mailbox[1..]);
    }
  }

  lemma StopStaysWaiting(p: Proc, e: Event)
    requires Enabled(p, e) && p.Alive() && StopWaiting(p) && Step(p, e).0.Alive()
    ensures StopWaiting(Step(p, e).0)
  {
    StopIsKeptOrAnswered(p, e);
    var i :| 0 <= i < |p.mailbox| && IsStop(p.mailbox[i]);
    assert p.mailbox[i] in Step(p, e).0.mailbox;
  }

  /** In the loop a step starts a callback only if the mailbox has no 3-tuple. */
  lemma LoopSpendsCalls(p: Proc, e: Event)
    requires Inv(p) && Enabled(p, e) && p.Alive() && StopWaiting(p) && !e.Deliver? && !e.Fire? && !e.Take?
    ensures var (p', outs) := Step(p, e); Starts(outs) + CallsLeft(p') <= CallsLeft(p)
  {
    var (p', outs) := Step(p, e);
    if e.Receive? {
      assert FirstTriple(p.mailbox) < |p.mailbox| && !p'.Alive();
    }
    NoStarts(outs);
    StepKeepsInv(p, e);
    if p'.phase.Idle? && ProcessBeforeStop(p'.mailbox) { ProcessBeforeStopIsWaiting(p'.mailbox); }
  }

  lemma StepSpendsCalls(p: Proc, e: Event)
    requires Inv(p) && Enabled(p, e) && p.Alive() && StopWaiting(p)
    ensures var (p', outs) := Step(p, e);
      Starts(outs) + CallsLeft(p') <= CallsLeft(p) && (p'.Alive() ==> StopWaiting(p'))
  {
    if Step(p, e).0.Alive() { StopStaysWaiting(p, e); }
    match e
    case Deliver(mail) => LateMailIsBehindStop(p.mailbox, mail);
    case Fire(i) => LateMailIsBehindStop(p.mailbox, Timer(p.timers[i]));
    case Take(polled) => TakeSpendsCalls(p, polled);
    case _ => LoopSpendsCalls(p, e);
  }

  lemma TakeSpendsCalls(p: Proc, polled: Polled)
    requires Inv(p) && Enabled(p, Take(polled))
    ensures var (p', outs) := Step(p, Take(polled)); Starts(outs) + CallsLeft(p') <= CallsLeft(p)
  {
    var (p', outs) := Step(p, Take(polled));
    var mail, rest := p.mailbox[0], p.mailbox[1..];
    if mail.Timer? {
      assert Waiting(p.mailbox) == [mail.tick] + Waiting(rest);
      assert !ProcessBeforeStop(rest) by {
        if ProcessBeforeStop(rest) { ProcessBeforeStopIsWaiting(rest); }
      }
      if mail == Timer(ProcessMessages) && p.mode == Batch {
        assert Starts([Start(p.messages)]) == 1 + Starts([Start(p.messages)][1..]);
      } else {
        NoStarts(outs);
      }
    } else {
      NoStarts(outs);
    }
  }

  /** Theorem. Once a stop request waits in the mailbox no further callback starts when
      messages are handled one by one, and at most one when they are handled in batches. */
  lemma {:induction false} CallbacksAfterStop(p: Proc, events: seq<Event>)
    requires Inv(p) && IsRun(p, events) && (p.Alive() ==> StopWaiting(p))
    ensures Starts(Outputs(p, events)) <= CallsLeft(p) <= (if p.mode == OneByOne then 0 else 1)
    decreases |events|
  {
    if events == [] {
    } else if !p.Alive() {
      GoneIsSilent(p, events);
    } else {
      StepKeepsInv(p, events[0]);
      StepSpendsCalls(p, events[0]);
      var (p', outs) := Step(p, events[0]);
      CallbacksAfterStop(p', events[1..]);
      StartsAppend(outs, Outputs(p', events[1..]));
    }
  }

  // ------------------------------------------- the step machine is the recursion

  lemma {:induction false} RunSplits(p: Proc, a: seq<Event>, b: seq<Event>)
    requires IsRun(p, a) && IsRun(After(p, a), b)
    ensures IsRun(p, a + b)
    ensures After(p, a + b) == After(After(p, a), b)
    ensures Outputs(p, a + b) == Outputs(p, a) + Outputs(After(p, a), b)
    decreases |a|
  {
    if a == [] {
      assert a + b == b;
    } else {
      assert (a + b)[0] == a[0] && (a + b)[1..] == a[1..] + b;
      RunSplits(Step(p, a[0]).0, a[1..], b);
    }
  }

  /** The part of a trace other processes can see. */
  function Visible(trace: seq<Effect<Cb>>): seq<Out> {
    if trace == [] then []
    else
      (match trace[0]
       case Called(batch, _) => [Start(batch)]
       case Stored(offset) => [StoreOffset(offset)]
       case Slept(_) => []) + Visible(trace[1..])
  }

  lemma {:induction false} VisibleAppend(a: seq<Effect<Cb>>, b: seq<Effect<Cb>>)
    ensures Visible(a + b) == Visible(a) + Visible(b)
  {
    if a == [] {
      assert a + b == b;
    } else {
      assert (a + b)[0] == a[0] && (a + b)[1..] == a[1..] + b;
      VisibleAppend(a[1..], b);
    }
  }

  /** How process_messages answers what process_events returned. */
  function Farewell(outcome: Outcome<Cb>): seq<Out> {
    match outcome
    case StoppedBy(StopRequest(from, tag)) => [SendStopped(from, tag), Exit(true)]
    case StoppedBy(ForeignTriple) => [Exit(false)]
    case _ => []
  }

  ghost predicate Agrees(p: Proc, events: seq<Event>, run: Run<Cb>) {
    && IsRun(p, events)
    && Outputs(p, events) == Visible(run.trace) + Farewell(run.outcome)
    && var end := After(p, events);
    && (run.outcome.Completed? ==> end.phase.Idle? && end.cb == run.outcome.state && end.messages == [])
    && (run.outcome.StoppedBy? ==> end.phase == Gone(run.outcome.msg.StopRequest?))
    && (run.outcome.Running? ==> end.Alive())
  }

  /** The events of one turn: a 3-tuple arrives and is seen, or the callback answers. */
  function TurnEvents(turn: Turn<Cb>): seq<Event> {
    match turn
    case Interrupted(msg) => [Deliver(Request(msg)), Receive]
    case Answered(Okay(cb)) => [Receive, Return(Okay(cb)), Store(true)]
    case Answered(reply) => [Receive, Return(reply)]
  }

  function LoopEvents(count: nat, turns: seq<Turn<Cb>>): seq<Event> {
    if count == 0 || turns == [] then []
    else if turns[0].Interrupted? then TurnEvents(turns[0])
    else TurnEvents(turns[0]) + LoopEvents(if turns[0].reply.Okay? then count - 1 else count, turns[1..])
  }

  lemma NoTriple(mailbox: seq<Mail>)
    requires forall m :: m in mailbox ==> !m.Request?
    ensures FirstTriple(mailbox) == |mailbox|
  {
  }

  lemma InterruptedAgrees(p: Proc, msg: Triple)
    requires p.phase.Receiving? && forall m :: m in p.mailbox ==> !m.Request?
    ensures Agrees(p, TurnEvents(Interrupted(msg)), Run(StoppedBy(msg), []))
  {
    var events := TurnEvents(Interrupted(msg));
    var p' := p.(mailbox := p.mailbox + [Request(msg)]);
    assert Step(p, events[0]).0 == p';
    var i := FirstTriple(p'.mailbox);
    assert p'.mailbox[|p.mailbox|].Request?;
    assert forall k :: 0 <= k < |p.mailbox| ==> p'.mailbox[k] == p.mailbox[k] && p.mailbox[k] in p.mailbox;
    assert i == |p.mailbox|;
    assert events[1..] == [Receive] && events[1..][1..] == [];
    assert Outputs(p', [Receive]) == Step(p', Receive).1 + Outputs(Step(p', Receive).0, []);
  }

  lemma AnsweredSteps(p: Proc, reply: Reply<Cb>)
    requires p.mode == OneByOne && p.phase.Receiving? && p.phase.rest != []
    requires forall m :: m in p.mailbox ==> !m.Request?
    ensures var events := TurnEvents(Answered(reply));
      var next := Advance(Position(p.phase.rest, 0, p.phase.cb), reply);
      && IsRun(p, events)
      && Outputs(p, events) == [Start([p.phase.rest[0]])] + (if reply.Okay? then [StoreOffset(p.phase.rest[0])] else [])
      && var p' := After(p, events);
      && p'.mode == OneByOne && p'.mailbox == p.mailbox
      && (if next.msgs == [] then p'.phase.Idle? && p'.cb == next.cb && p'.messages == []
          else
            var backoff := if reply.Okay? then 0 else ExponentialBackoff(p.phase.backoff).next;
            p'.phase == Receiving(next.msgs, backoff, next.cb))
  {
    NoTriple(p.mailbox);
    var events := TurnEvents(Answered(reply));
    var p1 := p.(phase := Calling(p.phase.rest, p.phase.backoff, p.phase.cb));
    assert p.phase.rest[..1] == [p.phase.rest[0]];
    assert Step(p, events[0]) == (p1, [Start([p.phase.rest[0]])]);
    var p2 := CallbackReturned(p1, reply);
    assert events[1..][0] == Return(reply) && Step(p1, Return(reply)) == (p2, []);
    if reply.Okay? {
      assert events[1..][1..] == [Store(true)] && [Store(true)][1..] == [];
      var (p3, outs) := Step(p2, Store(true));
      assert After(p2, [Store(true)]) == p3 && Outputs(p2, [Store(true)]) == outs + [];
    } else {
      assert events[1..][1..] == [];
    }
    assert After(p, events) == After(p1, events[1..]) == After(p2, events[1..][1..]);
    assert Outputs(p1, events[1..]) == [] + Outputs(p2, events[1..][1..]);
  }

  lemma VisibleAttempt(at: Position<Cb>, reply: Reply<Cb>)
    requires at.msgs != []
    ensures [reply][..0] == []
    ensures Visible(Attempt(at, [reply], 0))
         == [Start([at.msgs[0]])] + (if reply.Okay? then [StoreOffset(at.msgs[0])] else [])
  {
    assert [reply][..0] == [];
    var call := [Called([at.msgs[0]], at.cb)];
    var own: seq<Effect<Cb>> := if reply.Okay? then [Stored(at.msgs[0])] else SleepEffect(DelayAfter(at.failures));
    VisibleAppend(call, own);
    assert call[1..] == [] && (own != [] ==> own[1..] == []);
  }

  lemma AgreesInTwoParts(p: Proc, first: seq<Event>, more: seq<Event>, run: Run<Cb>, rest: Run<Cb>,
                         own: seq<Effect<Cb>>)
    requires IsRun(p, first) && Outputs(p, first) == Visible(own)
    requires Agrees(After(p, first), more, rest) && run == rest.After(own)
    ensures Agrees(p, first + more, run)
  {
    RunSplits(p, first, more);
    VisibleAppend(own, rest.trace);
  }

  lemma {:induction false} OneByOneLoopIsTheRecursion(p: Proc, failures: nat, turns: seq<Turn<Cb>>)
    requires p.mode == OneByOne && p.phase.Receiving? && p.phase.rest != [] && p.phase.backoff == DelayAfter(failures)
    requires forall m :: m in p.mailbox ==> !m.Request?
    ensures Agrees(p, LoopEvents(|p.phase.rest|, turns),
                   ProcessEventsOneByOne(p.phase.rest, p.phase.backoff, p.phase.cb, turns))
    decreases |turns|
  {
    var at := Position(p.phase.rest, failures, p.phase.cb);
    if turns == [] {
    } else if turns[0].Interrupted? {
      InterruptedAgrees(p, turns[0].msg);
    } else {
      var reply, first := turns[0].reply, TurnEvents(turns[0]);
      var next := Advance(at, reply);
      AnsweredSteps(p, reply);
      BackoffFollowsFailures(failures);
      var p', more := After(p, first), LoopEvents(|next.msgs|, turns[1..]);
      var rest := ProcessEventsOneByOne(next.msgs, DelayAfter(next.failures), next.cb, turns[1..]);
      assert Agrees(p', more, rest) by {
        if next.msgs != [] { OneByOneLoopIsTheRecursion(p', next.failures, turns[1..]); }
      }
      OneByOneUnfolds(at, turns);
      VisibleAttempt(at, reply);
      AgreesInTwoParts(p, first, more, ProcessEventsOneByOne(p.phase.rest, p.phase.backoff, p.phase.cb, turns), rest,
                       Attempt(at, [reply], 0));
    }
  }

  /** The consumer is about to process the messages it has polled, and no 3-tuple has come. */
  ghost predicate AboutToProcess(p: Proc) {
    && p.phase.Idle? && p.messages != [] && p.mailbox != [] && p.mailbox[0] == Timer(ProcessMessages)
    && forall m :: m in p.mailbox ==> !m.Request?
  }

  /** process_messages is taken from the mailbox. */
  function TakeProcess(): Event {
    Take(Polled([], -1))
  }

  /** Theorem. Driven by the same script, the step machine does, from the moment process_messages
      is taken, what process_events_one_by_one does from backoff 0: same callbacks, same stores,
      same end. */
  lemma OneByOneStepsAreTheRecursion(p: Proc, turns: seq<Turn<Cb>>)
    requires p.mode == OneByOne && AboutToProcess(p)
    ensures Agrees(p, [TakeProcess()] + LoopEvents(|p.messages|, turns),
                   ProcessEventsOneByOne(p.messages, 0, p.cb, turns))
  {
    var (p', outs) := Step(p, TakeProcess());
    var more := LoopEvents(|p.messages|, turns);
    assert p'.phase == Receiving(p.messages, 0, p.cb) && outs == [];
    OneByOneLoopIsTheRecursion(p', 0, turns);
    assert ([TakeProcess()] + more)[1..] == more;
    assert [] + Outputs(p', more) == Outputs(p', more);
  }

  /** One pass of the batch loop: the callback answers and, after a failure, the mailbox is
      looked at, where a 3-tuple may have arrived. */
  function BatchTurnEvents(turn: BatchTurn<Cb>): seq<Event> {
    if turn.reply.Okay? then [Return(turn.reply), Store(true)]
    else if turn.waiting.Some? then [Return(turn.reply), Deliver(Request(turn.waiting.value)), Receive]
    else [Return(turn.reply), Receive]
  }

  function BatchEvents(turns: seq<BatchTurn<Cb>>): seq<Event> {
    if turns == [] then []
    else BatchTurnEvents(turns[0]) + if Decides(turns[0]) then [] else BatchEvents(turns[1..])
  }

  /** What is seen of a batch run; one still running has called back once more. */
  function Seen(run: Run<Cb>, msgs: seq<Offset>): seq<Out> {
    Visible(run.trace) + (Farewell(run.outcome) + if run.outcome.Running? then [Start(msgs)] else [])
  }

  lemma SeenAfter(run: Run<Cb>, own: seq<Effect<Cb>>, msgs: seq<Offset>)
    ensures Seen(run.After(own), msgs) == Visible(own) + Seen(run, msgs)
  {
    VisibleAppend(own, run.trace);
  }

  /** The recursion's own call of the callback is the one the process is in already. */
  ghost predicate BatchAgrees(p: Proc, events: seq<Event>, run: Run<Cb>) {
    && IsRun(p, events)
    && Seen(run, p.messages) == [Start(p.messages)] + Outputs(p, events)
    && var end := After(p, events);
    && (run.outcome.Completed? ==> end.phase.Idle? && end.cb == run.outcome.state && end.messages == [])
    && (run.outcome.StoppedBy? ==> end.phase == Gone(run.outcome.msg.StopRequest?))
    && (run.outcome.Running? ==> end.phase.Calling?)
  }

  ghost predicate InBatchCall(p: Proc, failures: nat) {
    && p.mode == Batch && p.phase.Calling? && p.phase.rest == p.messages != []
    && p.phase.backoff == DelayAfter(failures)
    && forall m :: m in p.mailbox ==> !m.Request?
  }

  lemma BatchLastTurn(p: Proc, failures: nat, turn: BatchTurn<Cb>)
    requires InBatchCall(p, failures) && Decides(turn)
    ensures var events := BatchTurnEvents(turn);
      && IsRun(p, events)
      && var end := After(p, events);
      && (if turn.reply.Okay? then
            Outputs(p, events) == [StoreOffset(p.lastOffset)] && end.phase.Idle? && end.cb == turn.reply.state &&
              end.messages == []
          else
            Outputs(p, events) == Farewell(StoppedBy(turn.waiting.value)) &&
              end.phase == Gone(turn.waiting.value.StopRequest?))
  {
    var events := BatchTurnEvents(turn);
    var p1 := CallbackReturned(p, turn.reply);
    assert Step(p, events[0]) == (p1, []);
    if turn.reply.Okay? {
      assert events[1..] == [Store(true)] && [Store(true)][1..] == [];
      assert Outputs(p1, [Store(true)]) == Step(p1, Store(true)).1 + [];
    } else {
      var msg := turn.waiting.value;
      assert events[1..] == TurnEvents(Interrupted(msg));
      InterruptedAgrees(p1, msg);
      assert Visible([]) == [];
    }
  }

  lemma BatchRetryTurn(p: Proc, failures: nat, turn: BatchTurn<Cb>)
    requires InBatchCall(p, failures) && !Decides(turn)
    ensures var events := BatchTurnEvents(turn);
      && IsRun(p, events) && Outputs(p, events) == [Start(p.messages)]
      && var p' := After(p, events);
      && InBatchCall(p', failures + 1) && p'.messages == p.messages && p'.lastOffset == p.lastOffset
      && p'.phase.cb == Advance(Position(p.messages, failures, p.phase.cb), turn.reply).cb
  {
    var events := BatchTurnEvents(turn);
    var p1 := CallbackReturned(p, turn.reply);
    NoTriple(p.mailbox);
    BackoffFollowsFailures(failures);
    assert Step(p, events[0]) == (p1, []) && events[1..] == [Receive] && [Receive][1..] == [];
    var (p2, outs) := Step(p1, Receive);
    assert After(p1, [Receive]) == p2 && Outputs(p1, [Receive]) == outs + [];
  }

  lemma BatchAgreesInTwoParts(p: Proc, first: seq<Event>, more: seq<Event>, run: Run<Cb>, rest: Run<Cb>,
                              own: seq<Effect<Cb>>)
    requires IsRun(p, first) && Outputs(p, first) == Visible(own) == [Start(p.messages)]
    requires After(p, first).messages == p.messages
    requires BatchAgrees(After(p, first), more, rest) && run == rest.After(own)
    ensures BatchAgrees(p, first + more, run)
  {
    RunSplits(p, first, more);
    SeenAfter(rest, own, p.messages);
  }

  /** Theorem. The same for process_events_batch; a run still going has called back once more. */
  lemma BatchStepsAreTheRecursion(p: Proc, turns: seq<BatchTurn<Cb>>)
    requires p.mode == Batch && AboutToProcess(p)
    ensures var events := [TakeProcess()] + BatchEvents(turns);
      var run := ProcessEventsBatch(p.messages, p.lastOffset, 0, p.cb, turns);
      && IsRun(p, events) && Outputs(p, events) == Seen(run, p.messages)
      && var end := After(p, events);
      && (run.outcome.Completed? ==> end.phase.Idle? && end.cb == run.outcome.state && end.messages == [])
      && (run.outcome.StoppedBy? ==> end.phase == Gone(run.outcome.msg.StopRequest?))
      && (run.outcome.Running? ==> end.phase.Calling?)
  {
    var (p', outs) := Step(p, TakeProcess());
    var more := BatchEvents(turns);
    assert p'.phase == Calling(p.messages, 0, p.cb) && outs == [Start(p.messages)];
    BatchLoopIsTheRecursion(p', 0, turns);
    assert ([TakeProcess()] + more)[1..] == more;
  }

  lemma {:induction false} BatchLoopIsTheRecursion(p: Proc, failures: nat, turns: seq<BatchTurn<Cb>>)
    requires InBatchCall(p, failures)
    ensures BatchAgrees(p, BatchEvents(turns),
                        ProcessEventsBatch(p.messages, p.lastOffset, p.phase.backoff, p.phase.cb, turns))
    decreases |turns|
  {
    if turns == [] {
    } else if Decides(turns[0]) {
      BatchLastTurn(p, failures, turns[0]);
      BatchDecided(Position(p.messages, failures, p.phase.cb), p.lastOffset, turns);
      assert BatchEvents(turns) == BatchTurnEvents(turns[0]);
    } else {
      var at := Position(p.messages, failures, p.phase.cb);
      var next, own := Advance(at, turns[0].reply), BatchAttempt(at, p.lastOffset, turns[..1], 0);
      var first, more := BatchTurnEvents(turns[0]), BatchEvents(turns[1..]);
      BatchRetryTurn(p, failures, turns[0]);
      BatchLoopIsTheRecursion(After(p, first), failures + 1, turns[1..]);
      BatchUnfolds(at, p.lastOffset, turns);
      VisibleBatchAttempt(at, p.lastOffset, turns);
      var run := ProcessEventsBatch(p.messages, p.lastOffset, p.phase.backoff, p.phase.cb, turns);
      var rest := ProcessEventsBatch(next.msgs, p.lastOffset, DelayAfter(next.failures), next.cb, turns[1..]);
      BatchAgreesInTwoParts(p, first, more, run, rest, own);
    }
  }

  lemma BatchDecided(at: Position<Cb>, last: int, turns: seq<BatchTurn<Cb>>)
    requires at.msgs != [] && turns != [] && Decides(turns[0])
    ensures var run := ProcessEventsBatch(at.msgs, last, DelayAfter(at.failures), at.cb, turns);
      && run.outcome == (if turns[0].reply.Okay? then Completed(turns[0].reply.state)
           else StoppedBy(turns[0].waiting.value))
      && Visible(run.trace) == [Start(at.msgs)] + if turns[0].reply.Okay? then [StoreOffset(last)] else []
  {
    var run := ProcessEventsBatch(at.msgs, last, DelayAfter(at.failures), at.cb, turns);
    var call := [Called(at.msgs, at.cb)];
    var own: seq<Effect<Cb>> := if turns[0].reply.Okay? then [Stored(last)] else [];
    if !turns[0].reply.Okay? {
      var cb := Advance(at, turns[0].reply).cb;
      var retry := HandleBackoffOrStop(at.msgs, last, DelayAfter(at.failures), cb, turns[0].waiting, turns[1..]);
      assert run == retry.After(call);
    }
    assert run.trace == call + own;
    VisibleAppend(call, own);
    assert call[1..] == [] && (own != [] ==> own[1..] == []);
  }

  lemma VisibleBatchAttempt(at: Position<Cb>, last: int, turns: seq<BatchTurn<Cb>>)
    requires turns != [] && !Decides(turns[0])
    ensures Visible(BatchAttempt(at, last, turns[..1], 0)) == [Start(at.msgs)]
  {
    var call := [Called(at.msgs, StateAfter(at.cb, BatchReplies(turns[..1][..0])))];
    var sleep := SleepEffect<Cb>(DelayAfter(at.failures));
    VisibleAppend(call, sleep);
    assert call[1..] == [] && (sleep != [] ==> sleep[1..] == []);
  }
}
