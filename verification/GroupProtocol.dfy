/**
  The rebalance, delivery and shutdown protocol of a consumer group: librdkafka's rebalance
  callback (c_src/exrdkafka_consumer.cc), the group process (lib/exrdkafka/consumer_group.ex)
  and one consumer process per partition, as one machine whose steps interleave freely.
 */
module GroupProtocol {
  import opened Prelude
  import opened Consumer
  import opened QueuePoll
  import P = ConsumerProcess

  datatype TP = TP(topic: string, partition: int)

  /** A message of a partition. */
  datatype Rec = Rec(tp: TP, offset: Offset)

  /** The world around the program: each partition's log, the offset already consumed before
      the history begins, and the settings of its topic. */
  datatype Env = Env(log: TP -> seq<Offset>, origin: TP -> int, mode: TP -> P.Mode, maxBatch: TP -> nat)

  /** A partition queue: events fetched and not yet polled, where the next fetch continues in
      the log, and whether it has been forwarded back to the consumer's main queue. */
  datatype Queue = Queue(tp: TP, events: seq<seq<Offset>>, next: nat, forwarded: bool)

  datatype Worker = Worker(tp: TP, queue: nat, proc: P.Proc)

  /** An element of the assign message; the offset it carries is only logged. */
  datatype Part = Part(tp: TP, queue: nat)

  /** A value of active_topics_map. */
  datatype Entry = Entry(pid: nat, queue: nat)

  datatype Why = Revoking | Terminating

  /** Where the group process is: between handlers, starting consumers, in stop_consumers
      (before the next pair, or waiting for an answer), or terminated. */
  datatype Phase =
    | Ready
    | Starting(todo: seq<Part>)
    | Stopping(rest: seq<Entry>, why: Why)
    | Waiting(entry: Entry, tag: nat, rest: seq<Entry>, why: Why)
    | Down

  datatype Mail = Assign(parts: seq<Part>) | Revoke(tps: seq<TP>) | Exit(pid: nat, normal: bool) | Stopped(tag: nat)

  datatype Sys = Sys(
    assignment: Option<set<TP>>,     // what rd_kafka_assign was last given; None for NULL
    revoking: bool,                // a revoke was announced and rd_kafka_assign(NULL) not yet called
    running: bool,                 // enif_consumer.running
    queues: map<nat, Queue>,       // the partition queues of the current assignment
    phase: Phase,
    active: map<TP, Entry>,        // active_topics_map
    mailbox: seq<Mail>,            // of the group process
    workers: map<nat, Worker>,
    nextId: nat,                    // process ids, queue references and tags below it are taken
    stored: map<TP, int>,          // rd_kafka_offset_store
    done: set<Rec>,                // history: messages whose callback returned {:ok, _}
    polled: set<Rec>,              // history: messages handed to a consumer
    storedNow: set<Rec>,           // history: offsets stored in the current assignment
    dropped: set<Rec>)             // history: messages drained from the main queue in it

  const GROUP := 0

  function StoredOf(env: Env, stored: map<TP, int>, tp: TP): int {
    if tp in stored then stored[tp] else env.origin(tp)
  }

  function Init(): Sys {
    Sys(None, false, true, map[], Ready, map[], [], map[], 1, map[], {}, {}, {}, {})
  }

  datatype Action =
    | AssignCallback(parts: seq<Part>, starts: seq<nat>)
    | RevokeCallback(tps: seq<TP>)
    | Fetch(queue: nat, count: nat)
    | Drain(queue: nat)
    | TakeMail(order: seq<Entry>)
    | StartNext(cb: P.Cb)
    | StopNext
    | HearStopped(at: nat)
    | StopTimesOut
    | Shutdown(order: seq<Entry>)
    | WorkerEvent(pid: nat, event: P.Event)
    | Restart

  // ---------------------------------------------------------- environment assumptions

  ghost predicate Distinct(tps: seq<TP>) {
    forall i, j :: 0 <= i < j < |tps| ==> tps[i] != tps[j]
  }

  function TpsOf(parts: seq<Part>): (r: seq<TP>)
    ensures |r| == |parts| && forall i :: 0 <= i < |r| ==> r[i] == parts[i].tp
  {
    seq(|parts|, i requires 0 <= i < |parts| => parts[i].tp)
  }

  function SetOf(tps: seq<TP>): (r: set<TP>)
    ensures forall tp :: tp in r <==> tp in tps
  {
    set tp | tp in tps
  }

  function Outstanding(s: Sys): set<TP> {
    s.assignment.GetOr({})
  }

  /** A partition's log holds increasing offsets. */
  ghost predicate LogsOk(env: Env) {
    forall tp: TP, i, j :: 0 <= i < j < |env.log(tp)| ==> env.log(tp)[i] < env.log(tp)[j]
  }

  /** A new assignment comes only after rd_kafka_assign(NULL), for distinct partitions. */
  ghost predicate AssignIsFresh(s: Sys, parts: seq<Part>) {
    s.assignment.None? && !s.revoking && NewParts(parts, s.nextId)
  }

  /** Distinct partitions, each with a queue reference of its own. */
  ghost predicate NewParts(parts: seq<Part>, first: nat) {
    Distinct(TpsOf(parts)) && forall i :: 0 <= i < |parts| ==> parts[i].queue == first + i
  }

  ghost predicate StartsOk(env: Env, stored: map<TP, int>, parts: seq<Part>, starts: seq<nat>) {
    |starts| == |parts| && forall i :: 0 <= i < |parts| ==> RestartsNoLater(env, stored, parts[i].tp, starts[i])
  }

  /** A partition restarts no later than right after the offset stored for it. */
  ghost predicate RestartsNoLater(env: Env, stored: map<TP, int>, tp: TP, start: nat) {
    start <= |env.log(tp)| && forall i :: 0 <= i < start ==> env.log(tp)[i] <= StoredOf(env, stored, tp)
  }

  /** A revoke names the whole outstanding assignment. */
  ghost predicate RevokeIsWhole(s: Sys, tps: seq<TP>) {
    !s.revoking && SetOf(tps) == Outstanding(s) && Distinct(tps)
  }

  ghost predicate EnvAllows(env: Env, s: Sys, a: Action) {
    match a
    case AssignCallback(parts, starts) => s.running ==>
      AssignIsFresh(s, parts) && StartsOk(env, s.stored, parts, starts)
    case RevokeCallback(tps) => s.running ==> RevokeIsWhole(s, tps)
    case _ => true
  }

  // ------------------------------------------------------------------ what can happen

  predicate AliveIn(workers: map<nat, Worker>, pid: nat) {
    pid in workers && workers[pid].proc.Alive()
  }

  /** `order` lists the values of the map. */
  ghost predicate Lists(order: seq<Entry>, active: map<TP, Entry>) {
    && (forall tp :: tp in active ==> active[tp] in order)
    && forall e :: e in order ==> exists tp :: tp in active && active[tp] == e
  }

  /** The consumer's next handler is a poll of its queue. */
  predicate IsPoll(p: P.Proc, e: P.Event) {
    e.Take? && p.mailbox != [] && p.mailbox[0] == P.Timer(P.PollEvents)
  }

  function EventsIn(s: Sys, queue: nat): seq<seq<Offset>> {
    if queue in s.queues then s.queues[queue].events else []
  }

  /** A poll returns what the queue holds; only the group sends stop requests. */
  ghost predicate WorkerCan(env: Env, s: Sys, w: Worker, e: P.Event) {
    && P.Enabled(w.proc, e)
    && (IsPoll(w.proc, e) ==> e.polled == PollResult(EventsIn(s, w.queue), env.maxBatch(w.tp)))
    && (e.Deliver? ==> !P.IsStop(e.mail))
  }

  ghost predicate Can(env: Env, s: Sys, a: Action) {
    match a
    case AssignCallback(parts, starts) => |starts| == |parts|
    case RevokeCallback(tps) => true
    case Fetch(q, n) =>
      q in s.queues && n > 0 && s.queues[q].next + n <= |env.log(s.queues[q].tp)|
    case Drain(q) => q in s.queues && s.queues[q].forwarded && s.queues[q].events != []
    case TakeMail(order) => s.phase.Ready? && s.mailbox != [] &&
      (s.mailbox[0].Exit? || s.mailbox[0].Revoke? ==> Lists(order, s.active))
    case StartNext(_) => s.phase.Starting?
    case StopNext => s.phase.Stopping?
    case HearStopped(i) => s.phase.Waiting? && i < |s.mailbox| && s.mailbox[i] == Stopped(s.phase.tag)
    case StopTimesOut => s.phase.Waiting?
    case Shutdown(order) => s.phase.Ready? && Lists(order, s.active)
    case WorkerEvent(pid, e) => pid in s.workers && WorkerCan(env, s, s.workers[pid], e)
    case Restart => s.phase.Down?
  }

  // ----------------------------------------------------------------- what the code does

  /** One detached, empty queue per partition of the assignment. */
  function NewQueues(parts: seq<Part>, starts: seq<nat>, first: nat): (m: map<nat, Queue>)
    requires |starts| == |parts|
    ensures forall id :: id in m <==> first <= id < first + |parts|
    ensures forall id :: id in m ==> m[id] == Queue(parts[id - first].tp, [], starts[id - first], false)
  {
    var n := |parts|;
    if n == 0 then map[]
    else
      var last := Queue(parts[n - 1].tp, [], starts[n - 1], false);
      NewQueues(parts[..n - 1], starts[..n - 1], first)[first + n - 1 := last]
  }

  /** assign_partitions: assign, detach one new queue per partition, tell the group. */
  function OnAssign(s: Sys, parts: seq<Part>, starts: seq<nat>): Sys
    requires |starts| == |parts|
  {
    if !s.running then s.(assignment := None)
    else
      s.(assignment := Some(SetOf(TpsOf(parts))), queues := s.queues + NewQueues(parts, starts, s.nextId),
         mailbox := s.mailbox + [Assign(parts)],
         nextId := s.nextId + |parts|, storedNow := {}, dropped := {})
  }

  function OnRevoke(s: Sys, tps: seq<TP>): Sys {
    if !s.running then s.(assignment := None)
    else s.(revoking := true, mailbox := s.mailbox + [Revoke(tps)])
  }

  /** get_pid_queue_pairs, when no lookup fails. */
  function PairsFor(active: map<TP, Entry>, tps: seq<TP>): (r: seq<Entry>)
    requires forall tp :: tp in tps ==> tp in active
    ensures |r| == |tps| && forall i :: 0 <= i < |r| ==> r[i] == active[tps[i]]
  {
    seq(|tps|, i requires 0 <= i < |tps| => active[tps[i]])
  }

  /** The group's handle_info for the message at the head of its mailbox. Revoking a
      partition it does not know crashes the handler, and terminate stops everything. */
  function OnTake(s: Sys, order: seq<Entry>): Sys
    requires s.mailbox != []
  {
    var t := s.(mailbox := s.mailbox[1..]);
    match s.mailbox[0]
    case Assign(parts) => t.(phase := Starting(parts))
    case Revoke(tps) =>
      if forall tp :: tp in tps ==> tp in s.active then t.(phase := Stopping(PairsFor(s.active, tps), Revoking))
      else t.(phase := Stopping(order, Terminating))
    case Exit(_, normal) =>
      if normal || s.active == map[] then t else t.(phase := Stopping(order, Terminating))
    case Stopped(_) => t
  }

  /** One call of Consumer.start_link from the assign handler. */
  function OnStart(env: Env, s: Sys, cb: P.Cb): Sys
    requires s.phase.Starting?
  {
    if s.phase.todo == [] then s.(phase := Ready)
    else
      var part, pid := s.phase.todo[0], s.nextId;
      s.(workers := s.workers[pid := Worker(part.tp, part.queue, P.Init(env.mode(part.tp), cb))],
         active := s.active[part.tp := Entry(pid, part.queue)],
         phase := Starting(s.phase.todo[1..]), nextId := s.nextId + 1)
  }

  /** consumer_queue_cleanup: the queue is forwarded back to the main queue. */
  function ForwardBack(s: Sys, queue: nat): Sys {
    if queue in s.queues then s.(queues := s.queues[queue := s.queues[queue].(forwarded := true)]) else s
  }

  function SetProc(s: Sys, pid: nat, p: P.Proc): Sys
    requires pid in s.workers
  {
    s.(workers := s.workers[pid := s.workers[pid].(proc := p)])
  }

  function StopMail(tag: nat): P.Event {
    P.Deliver(P.Request(StopRequest(GROUP, tag)))
  }

  /** The group has sent a stop request under a new tag and waits for the answer. */
  function Asked(s: Sys, e: Entry, rest: seq<Entry>, p: P.Proc): Sys
    requires e.pid in s.workers && (s.phase.Stopping? || s.phase.Waiting?)
  {
    SetProc(s, e.pid, p).(phase := Waiting(e, s.nextId, rest, s.phase.why), nextId := s.nextId + 1)
  }

  /** One round of stop_consumers, up to the wait for the answer; what follows the last one. */
  function OnStopNext(s: Sys): Sys
    requires s.phase.Stopping?
  {
    var why := s.phase.why;
    if s.phase.rest == [] then
      match why
      case Revoking => s.(assignment := None, revoking := false, queues := map[], active := map[], phase := Ready)
      case Terminating => s.(assignment := None, revoking := false, running := false, queues := map[], active := map[],
                             mailbox := [], phase := Down)
    else
      var e, rest := s.phase.rest[0], s.phase.rest[1..];
      if AliveIn(s.workers, e.pid) then
        Asked(s, e, rest, P.Step(s.workers[e.pid].proc, StopMail(s.nextId)).0)
      else
        ForwardBack(s, e.queue).(phase := Stopping(rest, why))
  }

  function OnHearStopped(s: Sys, i: nat): Sys
    requires s.phase.Waiting? && i < |s.mailbox|
  {
    ForwardBack(s, s.phase.entry.queue).(mailbox := s.mailbox[..i] + s.mailbox[i + 1..],
                                         phase := Stopping(s.phase.rest, s.phase.why))
  }

  /** No answer in time: the consumer is killed. */
  function OnTimeout(s: Sys): Sys
    requires s.phase.Waiting?
  {
    var e := s.phase.entry;
    var t := if AliveIn(s.workers, e.pid) then
               SetProc(s, e.pid, P.Die(s.workers[e.pid].proc, false)).(mailbox := s.mailbox + [Exit(e.pid, false)])
             else s;
    ForwardBack(t, e.queue).(phase := Stopping(s.phase.rest, s.phase.why))
  }

  /** The messages the callback in progress was given. */
  function CalledNow(p: P.Proc): seq<Offset> {
    if !p.phase.Calling? then []
    else if p.mode == P.Batch || p.phase.rest == [] then p.phase.rest
    else [p.phase.rest[0]]
  }

  function Recs(tp: TP, offsets: seq<Offset>): (r: set<Rec>)
    ensures forall x :: x in r <==> x.tp == tp && x.offset in offsets
  {
    set o | o in offsets :: Rec(tp, o)
  }

  function Approved(w: Worker, e: P.Event): set<Rec> {
    if e.Return? && e.reply.Okay? then Recs(w.tp, CalledNow(w.proc)) else {}
  }

  function MailOf(pid: nat, out: P.Out): seq<Mail> {
    match out
    case SendStopped(_, tag) => [Stopped(tag)]
    case Exit(normal) => [Exit(pid, normal)]
    case _ => []
  }

  function MailFrom(pid: nat, outs: seq<P.Out>): seq<Mail> {
    if outs == [] then [] else MailOf(pid, outs[0]) + MailFrom(pid, outs[1..])
  }

  /** The offset a step stores, if any. */
  function StoreOut(outs: seq<P.Out>): Option<int> {
    if |outs| == 1 && outs[0].StoreOffset? then Some(outs[0].offset) else None
  }

  function OnWorker(env: Env, s: Sys, pid: nat, e: P.Event): Sys
    requires pid in s.workers && P.Enabled(s.workers[pid].proc, e)
  {
    var w := s.workers[pid];
    var (p, outs) := P.Step(w.proc, e);
    var polls := IsPoll(w.proc, e) && w.queue in s.queues;
    var events := EventsIn(s, w.queue);
    var store := StoreOut(outs);
    SetProc(s, pid, p).(
      queues := if polls then
                  s.queues[w.queue := s.queues[w.queue].(events := events[EventsTaken(events, env.maxBatch(w.tp))..])]
                else s.queues,
      polled := if polls then s.polled + Recs(w.tp, e.polled.messages) else s.polled,
      done := s.done + Approved(w, e),
      stored := if store.Some? then s.stored[w.tp := store.value] else s.stored,
      storedNow := if store.Some? && store.value >= 0 then s.storedNow + {Rec(w.tp, store.value)} else s.storedNow,
      mailbox := s.mailbox + MailFrom(pid, outs))
  }

  /** librdkafka puts the next `n` messages of the log into a partition queue. */
  function Fetched(env: Env, q: Queue, n: nat): Queue
    requires q.next + n <= |env.log(q.tp)|
  {
    q.(events := q.events + [env.log(q.tp)[q.next..q.next + n]], next := q.next + n)
  }

  function OnFetch(env: Env, s: Sys, id: nat, n: nat): Sys
    requires id in s.queues && s.queues[id].next + n <= |env.log(s.queues[id].tp)|
  {
    s.(queues := s.queues[id := Fetched(env, s.queues[id], n)])
  }

  /** The dispatcher takes one event from the main queue and throws it away. */
  function OnDrain(s: Sys, id: nat): Sys
    requires id in s.queues && s.queues[id].events != []
  {
    var q := s.queues[id];
    s.(queues := s.queues[id := q.(events := q.events[1..])], dropped := s.dropped + Recs(q.tp, q.events[0]))
  }

  function Apply(env: Env, s: Sys, a: Action): Sys
    requires Can(env, s, a)
  {
    match a
    case AssignCallback(parts, starts) => OnAssign(s, parts, starts)
    case RevokeCallback(tps) => OnRevoke(s, tps)
    case Fetch(q, n) => OnFetch(env, s, q, n)
    case Drain(q) => OnDrain(s, q)
    case TakeMail(order) => OnTake(s, order)
    case StartNext(cb) => OnStart(env, s, cb)
    case StopNext => OnStopNext(s)
    case HearStopped(i) => OnHearStopped(s, i)
    case StopTimesOut => OnTimeout(s)
    case Shutdown(order) => s.(phase := Stopping(order, Terminating))
    case WorkerEvent(pid, e) => OnWorker(env, s, pid, e)
    case Restart => s.(running := true, phase := Ready, storedNow := {}, dropped := {})
  }

  // ----------------------------------------------------------------------------- runs

  ghost predicate IsRun(env: Env, s: Sys, actions: seq<Action>)
    decreases |actions|
  {
    actions == [] ||
    (Can(env, s, actions[0]) && EnvAllows(env, s, actions[0]) && IsRun(env, Apply(env, s, actions[0]), actions[1..]))
  }

  ghost function After(env: Env, s: Sys, actions: seq<Action>): Sys
    requires IsRun(env, s, actions)
    decreases |actions|
  {
    if actions == [] then s else After(env, Apply(env, s, actions[0]), actions[1..])
  }
}
