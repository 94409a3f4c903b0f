/**
  What every step of the group protocol keeps. Each conjunct is a predicate of its own; the
  lemmas go action by action.
 */
module GroupInvariant {
  import opened Prelude
  import opened Consumer
  import opened QueuePoll
  import opened GroupProtocol
  import P = ConsumerProcess

  // ------------------------------------------------------------------------- delivery

  /** Consumed before the history began, or its callback has returned {:ok, _}. */
  ghost predicate Settled(env: Env, done: set<Rec>, tp: TP, o: Offset) {
    o <= env.origin(tp) || Rec(tp, o) in done
  }

  ghost predicate SettledBelow(env: Env, done: set<Rec>, tp: TP, n: nat)
    requires n <= |env.log(tp)|
  {
    forall i :: 0 <= i < n ==> Settled(env, done, tp, env.log(tp)[i])
  }

  /** What a consumer has been handed and has not finished with. */
  function Held(p: P.Proc): seq<Offset> {
    match p.phase
    case Idle => p.messages
    case Receiving(rest, _, _) => rest
    case Calling(rest, _, _) => rest
    case Storing(rest, _) => rest
    case Gone(_) => []
  }

  /** A queue holds the stretch of the log that ends where the next fetch begins. */
  ghost predicate QueueOk(env: Env, q: Queue) {
    var flat := Flatten(q.events);
    |flat| <= q.next <= |env.log(q.tp)| && flat == env.log(q.tp)[q.next - |flat|..q.next]
  }

  function Head(q: Queue): int {
    q.next - |Flatten(q.events)|
  }

  /** `held` is the stretch of the log right before the queue's head, and everything before
      it is settled. */
  ghost predicate Cursor(env: Env, done: set<Rec>, held: seq<Offset>, q: Queue) {
    var a := Head(q) - |held|;
    && QueueOk(env, q) && a >= 0
    && held == env.log(q.tp)[a..Head(q)]
    && SettledBelow(env, done, q.tp, a)
  }

  /** The messages a successful callback was given, until the store that follows. */
  function AboutToStore(p: P.Proc): seq<Offset> {
    if !p.phase.Storing? || p.phase.rest == [] then []
    else if p.mode == P.Batch then p.phase.rest
    else p.phase.rest[..1]
  }

  ghost predicate StoringSettled(env: Env, done: set<Rec>, tp: TP, p: P.Proc) {
    forall x :: x in AboutToStore(p) ==> Settled(env, done, tp, x)
  }

  ghost predicate WorkerOk(env: Env, done: set<Rec>, w: Worker, q: Queue) {
    && q.tp == w.tp && !q.forwarded
    && Cursor(env, done, Held(w.proc), q)
    && StoringSettled(env, done, w.tp, w.proc)
  }

  ghost predicate StoredSafe(env: Env, done: set<Rec>, tp: TP, stored: int) {
    forall i :: 0 <= i < |env.log(tp)| && env.log(tp)[i] <= stored ==> Settled(env, done, tp, env.log(tp)[i])
  }

  /** All that is still to come out of a queue lies above `x`. */
  ghost predicate AllAbove(env: Env, q: Queue, x: int) {
    forall i :: 0 <= i < |env.log(q.tp)| && Head(q) <= i ==> x < env.log(q.tp)[i]
  }

  // ------------------------------------------------------------------- steps of a worker

  lemma SettledGrows(env: Env, done: set<Rec>, more: set<Rec>, held: seq<Offset>, q: Queue)
    requires Cursor(env, done, held, q)
    ensures Cursor(env, done + more, held, q)
  {
  }

  /** Polling moves messages from the queue's head into the consumer's hands. */
  lemma PollKeepsCursor(env: Env, done: set<Rec>, q: Queue, maxBatch: nat)
    requires Cursor(env, done, [], q)
    ensures var n := EventsTaken(q.events, maxBatch);
      Cursor(env, done, PollResult(q.events, maxBatch).messages, q.(events := q.events[n..]))
    ensures Head(q) <= Head(q.(events := q.events[EventsTaken(q.events, maxBatch)..]))
  {
    var n := EventsTaken(q.events, maxBatch);
    var got, rest, flat := PollResult(q.events, maxBatch).messages, Flatten(q.events[n..]), Flatten(q.events);
    PollSplitsQueue(q.events, maxBatch);
    assert got == flat[..|got|] && rest == flat[|got|..];
    SplitStretch(env.log(q.tp), q.next - |flat|, q.next, |got|);
  }

  lemma SplitStretch(log: seq<Offset>, a: nat, b: nat, m: nat)
    requires a <= b <= |log| && m <= b - a
    ensures log[a..b][..m] == log[a..a + m] && log[a..b][m..] == log[a + m..b]
  {
  }

  /** Storing the first message held lets go of it. */
  lemma StoreOneKeepsCursor(env: Env, done: set<Rec>, held: seq<Offset>, q: Queue)
    requires Cursor(env, done, held, q) && held != [] && Settled(env, done, q.tp, held[0])
    ensures Cursor(env, done, held[1..], q)
  {
    var a, log := Head(q) - |held|, env.log(q.tp);
    assert held[0] == log[a];
    assert held[1..] == log[a..Head(q)][1..] == log[a + 1..Head(q)];
  }

  lemma StoreAllKeepsCursor(env: Env, done: set<Rec>, held: seq<Offset>, q: Queue)
    requires Cursor(env, done, held, q) && forall x :: x in held ==> Settled(env, done, q.tp, x)
    ensures Cursor(env, done, [], q)
  {
    var a, log := Head(q) - |held|, env.log(q.tp);
    forall i | 0 <= i < Head(q) ensures Settled(env, done, q.tp, log[i]) {
      if i >= a { assert held[i - a] == log[i] && held[i - a] in held; }
    }
    assert log[Head(q)..Head(q)] == [];
  }

  /** Storing message number `k` of those held is safe when all up to it are settled. */
  lemma StoreIsSafe(env: Env, done: set<Rec>, held: seq<Offset>, q: Queue, k: nat)
    requires LogsOk(env) && Cursor(env, done, held, q) && k < |held|
    requires forall j :: 0 <= j <= k ==> Settled(env, done, q.tp, held[j])
    ensures StoredSafe(env, done, q.tp, held[k]) && AllAbove(env, q, held[k])
  {
    var a, log := Head(q) - |held|, env.log(q.tp);
    assert held[k] == log[a + k];
    forall i | 0 <= i < |log| && log[i] <= held[k] ensures Settled(env, done, q.tp, log[i]) {
      assert i <= a + k;
      if a <= i { assert held[i - a] == log[i]; }
    }
  }

  /** How the messages held change with a step that does not end the consumer. */
  lemma HeldAfter(p: P.Proc, e: P.Event)
    requires P.Inv(p) && P.Enabled(p, e) && P.Step(p, e).0.Alive()
    ensures var (p', outs) := P.Step(p, e);
      && p'.mode == p.mode
      && (IsPoll(p, e) ==> Held(p) == [] && Held(p') == e.polled.messages && StoreOut(outs) == None)
      && (e.Store? ==>
            (&& p.phase.rest == Held(p) != []
             && Held(p') == (if p.mode == P.Batch then [] else Held(p)[1..])
             && StoreOut(outs) == Some(if p.mode == P.Batch then p.lastOffset else Held(p)[0])
             && (p.mode == P.Batch ==> p.lastOffset == Held(p)[|Held(p)| - 1])))
      && (!IsPoll(p, e) && !e.Store? ==> Held(p') == Held(p) && StoreOut(outs) == None)
      && (p'.phase.Storing? ==> e.Return? || e.Deliver? || e.Fire?)
      && (p'.phase.Storing? && e.Return? ==> e.reply.Okay? && p.phase.Calling? && p.phase.rest == p'.phase.rest)
      && (p'.phase.Storing? && !e.Return? ==> p.phase == p'.phase)
  {
    if e.Take? && p.mailbox[0].Timer? {
      assert P.Waiting(p.mailbox) == [p.mailbox[0].tick] + P.Waiting(p.mailbox[1..]);
      assert P.Pending(p)[|p.timers|] == p.mailbox[0].tick;
    }
  }

  // ------------------------------------------------------------------- the invariant

  ghost predicate Ids(queues: map<nat, Queue>, workers: map<nat, Worker>, mailbox: seq<Mail>, nextId: nat) {
    && (forall id :: id in queues ==> id < nextId)
    && (forall pid :: pid in workers ==> pid < nextId && workers[pid].queue < nextId)
    && (forall m :: m in mailbox && m.Stopped? ==> m.tag < nextId)
  }

  ghost predicate Procs(env: Env, workers: map<nat, Worker>) {
    forall pid :: pid in workers ==> P.Inv(workers[pid].proc) && workers[pid].proc.mode == env.mode(workers[pid].tp)
  }

  /** At most one queue per partition, and only for partitions now assigned. */
  ghost predicate Queues(env: Env, queues: map<nat, Queue>, outstanding: set<TP>) {
    && (forall id :: id in queues ==> QueueOk(env, queues[id]) && queues[id].tp in outstanding)
    && (forall a, b :: a in queues && b in queues && queues[a].tp == queues[b].tp ==> a == b)
  }

  ghost predicate EntryOk(workers: map<nat, Worker>, queues: map<nat, Queue>, tp: TP, e: Entry) {
    && e.pid in workers && workers[e.pid].tp == tp && workers[e.pid].queue == e.queue
    && e.queue in queues && queues[e.queue].tp == tp
  }

  ghost predicate ActiveOk(active: map<TP, Entry>, workers: map<nat, Worker>, queues: map<nat, Queue>) {
    forall tp :: tp in active ==> EntryOk(workers, queues, tp, active[tp])
  }

  /** Every live consumer is in active_topics_map, under its own partition. */
  ghost predicate Tracked(workers: map<nat, Worker>, active: map<TP, Entry>) {
    forall pid :: AliveIn(workers, pid) ==>
      workers[pid].tp in active && active[workers[pid].tp] == Entry(pid, workers[pid].queue)
  }

  ghost predicate Delivery(env: Env, done: set<Rec>, workers: map<nat, Worker>, queues: map<nat, Queue>) {
    forall pid :: AliveIn(workers, pid) ==>
      workers[pid].queue in queues && WorkerOk(env, done, workers[pid], queues[workers[pid].queue])
  }

  ghost predicate Ending(phase: Phase) {
    phase.Down? || ((phase.Stopping? || phase.Waiting?) && phase.why == Terminating)
  }

  /** A partition the group has been told of and has not started a consumer for. */
  ghost predicate IsPending(phase: Phase, mailbox: seq<Mail>, part: Part) {
    !Ending(phase) &&
    ((phase.Starting? && part in phase.todo) || exists m :: m in mailbox && m.Assign? && part in m.parts)
  }

  ghost predicate PartOk(env: Env, done: set<Rec>, workers: map<nat, Worker>, queues: map<nat, Queue>, part: Part) {
    && part.queue in queues
    && var q := queues[part.queue];
    && q.tp == part.tp && !q.forwarded && Cursor(env, done, [], q)
    && forall pid :: pid in workers ==> workers[pid].queue != part.queue
  }

  ghost predicate PendingOk(env: Env, done: set<Rec>, phase: Phase, mailbox: seq<Mail>,
                            workers: map<nat, Worker>, queues: map<nat, Queue>) {
    forall part :: IsPending(phase, mailbox, part) ==> PartOk(env, done, workers, queues, part)
  }

  ghost predicate StoredOk(env: Env, done: set<Rec>, stored: map<TP, int>) {
    forall tp :: StoredSafe(env, done, tp, StoredOf(env, stored, tp))
  }

  ghost predicate NowBelow(env: Env, storedNow: set<Rec>, queues: map<nat, Queue>) {
    forall r, id :: r in storedNow && id in queues && queues[id].tp == r.tp ==> AllAbove(env, queues[id], r.offset)
  }

  /** What was dropped lies above all that was stored, and for good: its queue has been
      forwarded back. */
  ghost predicate DroppedOk(dropped: set<Rec>, storedNow: set<Rec>, queues: map<nat, Queue>) {
    && (forall d, r :: d in dropped && r in storedNow && d.tp == r.tp ==> r.offset < d.offset)
    && (forall d, id :: d in dropped && id in queues && queues[id].tp == d.tp ==> queues[id].forwarded)
  }

  ghost predicate PolledInLog(env: Env, polled: set<Rec>) {
    forall r :: r in polled ==> r.offset in env.log(r.tp)
  }

  // ------------------------------------------------------------- where the group stands

  /** The rebalance messages waiting, oldest first. */
  function Rebalances(mailbox: seq<Mail>): seq<Mail> {
    if mailbox == [] then []
    else (if mailbox[0].Assign? || mailbox[0].Revoke? then [mailbox[0]] else []) + Rebalances(mailbox[1..])
  }

  /** Of the rebalance messages waiting, a revoke can only be the last; before it there is
      at most the assign message that the map does not show yet. */
  ghost predicate Announced(revoking: bool, assignment: Option<set<TP>>, waiting: seq<Mail>, covered: set<TP>) {
    var n, outstanding := |waiting|, assignment.GetOr({});
    && revoking == (n > 0 && waiting[n - 1].Revoke?)
    && (revoking ==> SetOf(waiting[n - 1].tps) == outstanding)
    && var told := if revoking then waiting[..n - 1] else waiting;
    && if told == [] then covered == outstanding
       else |told| == 1 && told[0].Assign? && covered == {} && assignment == Some(SetOf(TpsOf(told[0].parts)))
            && Distinct(TpsOf(told[0].parts))
  }

  ghost predicate Stage(s: Sys) {
    match s.phase
    case Down =>
      !s.running && !s.revoking && s.assignment.None? && s.queues == map[] && s.active == map[] && s.mailbox == []
    case Ready => s.running && Announced(s.revoking, s.assignment, Rebalances(s.mailbox), s.active.Keys)
    case Starting(todo) =>
      var tps := TpsOf(todo);
      && s.running && Distinct(tps) && SetOf(tps) !! s.active.Keys
      && Announced(s.revoking, s.assignment, Rebalances(s.mailbox), s.active.Keys + SetOf(tps))
      && (forall m :: m in s.mailbox ==> !m.Assign?)
      && s.assignment.Some?
    case _ =>
      s.running &&
      (s.phase.why == Revoking ==> s.revoking && s.active.Keys == s.assignment.GetOr({}) && Rebalances(s.mailbox) == [])
  }

  ghost predicate Listed(workers: map<nat, Worker>, active: map<TP, Entry>, e: Entry) {
    e.pid in workers && workers[e.pid].tp in active && active[workers[e.pid].tp] == e
  }

  ghost predicate ToStop(phase: Phase, e: Entry) {
    ((phase.Stopping? || phase.Waiting?) && e in phase.rest) || (phase.Waiting? && e == phase.entry)
  }

  /** In stop_consumers, the consumers still alive are among those still to be stopped. */
  ghost predicate StopList(phase: Phase, workers: map<nat, Worker>, active: map<TP, Entry>) {
    phase.Stopping? || phase.Waiting? ==>
      && (forall e :: ToStop(phase, e) ==> Listed(workers, active, e))
      && (forall pid :: AliveIn(workers, pid) ==> ToStop(phase, Entry(pid, workers[pid].queue)))
  }

  /** Those already dealt with have had their queue forwarded back. */
  ghost predicate ForwardedOk(phase: Phase, active: map<TP, Entry>, queues: map<nat, Queue>) {
    phase.Stopping? || phase.Waiting? ==>
      forall tp :: tp in active && !ToStop(phase, active[tp]) ==>
        active[tp].queue in queues && queues[active[tp].queue].forwarded
  }

  /** Only the consumer the group waits for has a stop request, and its answer is the answer
      the group waits for. */
  ghost predicate Requests(phase: Phase, workers: map<nat, Worker>, mailbox: seq<Mail>, nextId: nat) {
    && (forall pid, m :: AliveIn(workers, pid) && m in workers[pid].proc.mailbox && P.IsStop(m) ==>
          phase.Waiting? && pid == phase.entry.pid && m.triple.tag == phase.tag)
    && (phase.Waiting? && Stopped(phase.tag) in mailbox ==> !AliveIn(workers, phase.entry.pid))
    && (phase.Waiting? ==> phase.tag < nextId)
  }

  ghost predicate Structure(env: Env, s: Sys) {
    && Ids(s.queues, s.workers, s.mailbox, s.nextId)
    && Procs(env, s.workers)
    && Queues(env, s.queues, Outstanding(s))
    && ActiveOk(s.active, s.workers, s.queues)
    && Tracked(s.workers, s.active)
  }

  ghost predicate Data(env: Env, s: Sys) {
    && Delivery(env, s.done, s.workers, s.queues)
    && PendingOk(env, s.done, s.phase, s.mailbox, s.workers, s.queues)
    && StoredOk(env, s.done, s.stored)
    && NowBelow(env, s.storedNow, s.queues)
    && DroppedOk(s.dropped, s.storedNow, s.queues)
    && PolledInLog(env, s.polled)
  }

  ghost predicate Control(s: Sys) {
    && Stage(s)
    && StopList(s.phase, s.workers, s.active)
    && ForwardedOk(s.phase, s.active, s.queues)
    && Requests(s.phase, s.workers, s.mailbox, s.nextId)
  }

  ghost predicate Inv(env: Env, s: Sys) {
    Structure(env, s) && Data(env, s) && Control(s)
  }

  lemma InitInv(env: Env)
    ensures Inv(env, Init())
  {
  }
}
