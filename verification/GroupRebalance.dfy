/**
  That a rebalance gets done: an assign message makes a consumer for every partition, a revoke
  announced can always be carried out, and no message queued for a consumer goes missing.
 */
module GroupRebalance {
  import opened Prelude
  import opened Consumer
  import opened QueuePoll
  import opened GroupProtocol
  import opened GroupInvariant
  import opened GroupSteps
  import opened GroupTheorems
  import opened GroupProgress
  import P = ConsumerProcess

  // ------------------------------------------------------------------- an assign message

  /** The starts of one assign message, with the state each callback module begins in. */
  function StartAll(cbs: seq<P.Cb>): (r: seq<Action>)
    ensures |r| == |cbs| && forall i :: 0 <= i < |r| ==> r[i] == StartNext(cbs[i])
  {
    seq(|cbs|, i requires 0 <= i < |cbs| => StartNext(cbs[i]))
  }

  /** Process `pid` is a new consumer for the partition, on its queue and in the map. */
  predicate IsServed(env: Env, part: Part, pid: nat, cb: P.Cb, workers: map<nat, Worker>, active: map<TP, Entry>) {
    && pid in workers && part.tp in active
    && workers[pid] == Worker(part.tp, part.queue, P.Init(env.mode(part.tp), cb))
    && active[part.tp] == Entry(pid, part.queue)
  }

  /** One new consumer per partition, in the order of the message. */
  ghost predicate EachHasOne(env: Env, first: nat, todo: seq<Part>, cbs: seq<P.Cb>, workers: map<nat, Worker>,
                             active: map<TP, Entry>)
    requires |cbs| >= |todo|
  {
    forall i :: 0 <= i < |todo| ==> IsServed(env, todo[i], first + i, cbs[i], workers, active)
  }

  ghost predicate OthersStay(first: nat, n: nat, workers: map<nat, Worker>, workers': map<nat, Worker>) {
    && (forall pid :: pid in workers && pid < first ==> pid in workers' && workers'[pid] == workers[pid])
    && (forall pid :: pid in workers' ==> pid in workers || first <= pid < first + n)
  }

  ghost predicate OthersMapped(tps: seq<TP>, active: map<TP, Entry>, active': map<TP, Entry>) {
    && (forall tp :: tp in active && tp !in tps ==> tp in active' && active'[tp] == active[tp])
    && (forall tp :: tp in active' <==> tp in active || tp in tps)
  }

  /** The starts of `todo` are done, and nothing else is different. */
  ghost predicate AllStarted(env: Env, s: Sys, t: Sys, todo: seq<Part>, cbs: seq<P.Cb>)
    requires |cbs| >= |todo|
  {
    && EachHasOne(env, s.nextId, todo, cbs, t.workers, t.active)
    && OthersStay(s.nextId, |todo|, s.workers, t.workers)
    && OthersMapped(TpsOf(todo), s.active, t.active)
    && t == s.(workers := t.workers, active := t.active, phase := Ready, nextId := s.nextId + |todo|)
  }

  lemma {:induction false} StartsEach(env: Env, s: Sys, cbs: seq<P.Cb>)
    requires s.phase.Starting? && |cbs| == |s.phase.todo| + 1 && Distinct(TpsOf(s.phase.todo))
    ensures IsRun(env, s, StartAll(cbs))
    ensures AllStarted(env, s, After(env, s, StartAll(cbs)), s.phase.todo, cbs)
    decreases |cbs|
  {
    hide EachHasOne, OthersStay, OthersMapped, OnStart;
    var todo, u, more := s.phase.todo, OnStart(env, s, cbs[0]), StartAll(cbs[1..]);
    assert StartAll(cbs)[0] == StartNext(cbs[0]) && StartAll(cbs)[1..] == more;
    StartOne(env, s, cbs[0]);
    if todo == [] {
      assert more == [];
      NoneStarted(env, s, cbs);
    } else {
      TpsFrom(todo);
      StartsEach(env, u, cbs[1..]);
      OneMoreStarted(env, s, After(env, u, more), cbs);
    }
  }

  lemma TpsFrom(todo: seq<Part>)
    requires todo != []
    ensures TpsOf(todo) == [todo[0].tp] + TpsOf(todo[1..])
    ensures Distinct(TpsOf(todo)) ==> Distinct(TpsOf(todo[1..])) && todo[0].tp !in TpsOf(todo[1..])
  {
    assert TpsOf(todo)[1..] == TpsOf(todo[1..]);
  }

  lemma StartOne(env: Env, s: Sys, cb: P.Cb)
    requires s.phase.Starting?
    ensures var (t, todo) := (OnStart(env, s, cb), s.phase.todo);
      && (todo == [] ==> t == s.(phase := Ready))
      && (todo != [] ==>
            && t.workers == s.workers[s.nextId := Worker(todo[0].tp, todo[0].queue, P.Init(env.mode(todo[0].tp), cb))]
            && t.active == s.active[todo[0].tp := Entry(s.nextId, todo[0].queue)]
            && t == s.(workers := t.workers, active := t.active, phase := Starting(todo[1..]), nextId := s.nextId + 1))
  {
  }

  lemma NoneStarted(env: Env, s: Sys, cbs: seq<P.Cb>)
    ensures AllStarted(env, s, s.(phase := Ready), [], cbs)
  {
  }

  lemma OneMoreStarted(env: Env, s: Sys, t: Sys, cbs: seq<P.Cb>)
    requires s.phase.Starting? && s.phase.todo != [] && |cbs| == |s.phase.todo| + 1 && Distinct(TpsOf(s.phase.todo))
    requires AllStarted(env, OnStart(env, s, cbs[0]), t, s.phase.todo[1..], cbs[1..])
    ensures AllStarted(env, s, t, s.phase.todo, cbs)
  {
    hide EachHasOne, OthersStay, OthersMapped, Distinct, OnStart;
    var todo, u := s.phase.todo, OnStart(env, s, cbs[0]);
    StartOne(env, s, cbs[0]);
    TpsFrom(todo);
    OneMoreHasOne(env, s, todo, cbs, u.workers, t.workers, u.active, t.active);
    OneMoreStays(s.nextId, |todo|, s.workers, u.workers[s.nextId], t.workers);
    OneMoreMapped(todo[0].tp, u.active[todo[0].tp], TpsOf(todo[1..]), s.active, t.active);
  }

  lemma OneMoreHasOne(env: Env, s: Sys, todo: seq<Part>, cbs: seq<P.Cb>, workers: map<nat, Worker>,
                      workers': map<nat, Worker>, active: map<TP, Entry>, active': map<TP, Entry>)
    requires todo != [] && |cbs| == |todo| + 1 && todo[0].tp !in TpsOf(todo[1..])
    requires EachHasOne(env, s.nextId + 1, todo[1..], cbs[1..], workers', active')
    requires OthersStay(s.nextId + 1, |todo| - 1, workers, workers') && OthersMapped(TpsOf(todo[1..]), active, active')
    requires s.nextId in workers && todo[0].tp in active
    requires workers[s.nextId] == Worker(todo[0].tp, todo[0].queue, P.Init(env.mode(todo[0].tp), cbs[0]))
    requires active[todo[0].tp] == Entry(s.nextId, todo[0].queue)
    ensures EachHasOne(env, s.nextId, todo, cbs, workers', active')
  {
    forall i | 0 <= i < |todo| ensures IsServed(env, todo[i], s.nextId + i, cbs[i], workers', active') {
      if i > 0 {
        assert todo[i] == todo[1..][i - 1] && cbs[i] == cbs[1..][i - 1];
        assert IsServed(env, todo[1..][i - 1], (s.nextId + 1) + (i - 1), cbs[1..][i - 1], workers', active');
      }
    }
  }

  lemma OneMoreStays(first: nat, n: nat, workers: map<nat, Worker>, w: Worker, workers': map<nat, Worker>)
    requires n > 0 && OthersStay(first + 1, n - 1, workers[first := w], workers')
    ensures OthersStay(first, n, workers, workers')
  {
    forall pid | pid in workers && pid < first ensures pid in workers' && workers'[pid] == workers[pid] {
      assert pid in workers[first := w];
    }
  }

  lemma OneMoreMapped(tp: TP, e: Entry, tps: seq<TP>, active: map<TP, Entry>, active': map<TP, Entry>)
    requires OthersMapped(tps, active[tp := e], active')
    ensures OthersMapped([tp] + tps, active, active')
  {
  }

  /** Theorem. Once the group takes an assign message, one start after another leads back to the
      main loop with a new live consumer for each of its partitions, on that partition's own
      queue and in the map; whoever was there before is left alone. */
  lemma AssignStartsConsumers(env: Env, s: Sys, cbs: seq<P.Cb>)
    requires LogsOk(env) && Reachable(env, s)
    requires s.phase.Ready? && s.mailbox != [] && s.mailbox[0].Assign? && |cbs| == |s.mailbox[0].parts| + 1
    ensures IsRun(env, s, [TakeMail([])] + StartAll(cbs))
    ensures var (t, parts) := (After(env, s, [TakeMail([])] + StartAll(cbs)), s.mailbox[0].parts);
      && t.phase.Ready? && t.mailbox == s.mailbox[1..] && t.queues == s.queues && t.assignment == s.assignment
      && (forall i :: 0 <= i < |parts| ==>
            parts[i].queue in t.queues && IsServed(env, parts[i], s.nextId + i, cbs[i], t.workers, t.active))
      && (forall pid :: pid in s.workers ==> pid in t.workers && t.workers[pid] == s.workers[pid])
      && (forall tp :: tp in t.active <==> tp in s.active || tp in TpsOf(parts))
  {
    hide Inv, Reachable, EachHasOne, OthersStay, OthersMapped, Distinct, Ids, LogsOk, IsServed;
    ReachableInv(env, s);
    var (u, parts, actions) := (OnTake(s, []), s.mailbox[0].parts, [TakeMail([])] + StartAll(cbs));
    AssignWaiting(env, s);
    IdsOf(env, s);
    assert actions[0] == TakeMail([]) && actions[1..] == StartAll(cbs);
    StartsEach(env, u, cbs);
    StartedMeans(env, s, parts, cbs, After(env, u, StartAll(cbs)));
  }

  lemma StartedMeans(env: Env, s: Sys, parts: seq<Part>, cbs: seq<P.Cb>, t: Sys)
    requires |cbs| >= |parts| && EachHasOne(env, s.nextId, parts, cbs, t.workers, t.active)
    requires OthersStay(s.nextId, |parts|, s.workers, t.workers) && OthersMapped(TpsOf(parts), s.active, t.active)
    requires Ids(s.queues, s.workers, s.mailbox, s.nextId) && t.queues == s.queues
    requires forall part :: part in parts ==> part.queue in s.queues
    ensures forall i :: 0 <= i < |parts| ==>
              parts[i].queue in t.queues && IsServed(env, parts[i], s.nextId + i, cbs[i], t.workers, t.active)
    ensures forall pid :: pid in s.workers ==> pid in t.workers && t.workers[pid] == s.workers[pid]
    ensures forall tp :: tp in t.active <==> tp in s.active || tp in TpsOf(parts)
  {
  }

  lemma AssignWaiting(env: Env, s: Sys)
    requires Inv(env, s) && s.phase.Ready? && s.mailbox != [] && s.mailbox[0].Assign?
    ensures Distinct(TpsOf(s.mailbox[0].parts)) && forall part :: part in s.mailbox[0].parts ==> part.queue in s.queues
  {
    forall part | part in s.mailbox[0].parts ensures part.queue in s.queues {
      assert IsPending(s.phase, s.mailbox, part);
    }
    AnnouncedAssign(s.revoking, s.assignment, Rebalances(s.mailbox), s.active.Keys);
  }

  // --------------------------------------------------------------- a revoke is carried out

  /** What the group does by itself: nothing that others announce, and no shutdown. */
  ghost predicate OwnSteps(actions: seq<Action>) {
    forall a :: a in actions ==> a.TakeMail? || a.StartNext? || IsStopStep(a)
  }

  function StartsLeft(phase: Phase): nat {
    if phase.Starting? then |phase.todo| + 1 else 0
  }

  /** Theorem. A revoke announced can always be carried out: from wherever the group stands, steps
      of its own, whatever else is in its mailbox, lead to where nothing is assigned. */
  lemma {:induction false} RevokeCompletes(env: Env, s: Sys, cb: P.Cb) returns (actions: seq<Action>)
    requires LogsOk(env) && Inv(env, s) && s.revoking
    ensures IsRun(env, s, actions) && OwnSteps(actions)
    ensures var t := After(env, s, actions);
      (t.phase.Ready? || t.phase.Down?) && t.assignment.None? && !t.revoking && t.queues == map[] && t.active == map[]
    decreases |s.mailbox|, StartsLeft(s.phase)
  {
    hide Inv, Can, Apply, EnvAllows, OwnSteps, Lists;
    RevokeWaits(env, s);
    if InStop(s.phase) {
      actions := StopReachesEnd(env, s);
      StopStepsAreOwn(actions);
    } else {
      var order := OrderOf(s.active);
      var a := if s.phase.Starting? then StartNext(cb) else TakeMail(order);
      OwnStepGoes(env, s, a, order, cb);
      StepKeepsInv(env, s, a);
      var more := RevokeCompletes(env, Apply(env, s, a), cb);
      actions := [a] + more;
      assert actions[1..] == more;
      OneMoreOwn(a, more);
    }
  }

  lemma RevokeWaits(env: Env, s: Sys)
    requires Inv(env, s) && s.revoking
    ensures !s.phase.Down? && (s.phase.Ready? ==> s.mailbox != [])
  {
    hide Structure, Data, StopList, ForwardedOk, Requests;
    if s.phase.Ready? { assert Rebalances(s.mailbox) != []; }
  }

  lemma OneMoreOwn(a: Action, more: seq<Action>)
    requires OwnSteps(more) && (a.TakeMail? || a.StartNext?)
    ensures OwnSteps([a] + more)
  {
  }

  lemma {:induction false} StopStepsAreOwn(actions: seq<Action>)
    ensures StopSteps(actions) <= |actions|
    ensures StopSteps(actions) == |actions| ==> OwnSteps(actions)
  {
    if actions == [] {
    } else {
      StopStepsAreOwn(actions[1..]);
    }
  }

  lemma OwnStepGoes(env: Env, s: Sys, a: Action, order: seq<Entry>, cb: P.Cb)
    requires s.phase.Starting? || (s.phase.Ready? && s.mailbox != [])
    requires Lists(order, s.active) && a == if s.phase.Starting? then StartNext(cb) else TakeMail(order)
    ensures Can(env, s, a) && EnvAllows(env, s, a)
    ensures var t := Apply(env, s, a);
      && t.revoking == s.revoking
      && (|t.mailbox| < |s.mailbox| || (t.mailbox == s.mailbox && StartsLeft(t.phase) < StartsLeft(s.phase)))
  {
    hide Lists, OnTake, OnStart;
    if s.phase.Starting? { StartGoes(env, s, cb); } else { TakeShape(s, order); }
  }

  lemma StartGoes(env: Env, s: Sys, cb: P.Cb)
    requires s.phase.Starting?
    ensures var t := OnStart(env, s, cb);
      t.revoking == s.revoking && t.mailbox == s.mailbox && StartsLeft(t.phase) < StartsLeft(s.phase)
  {
  }

  // ------------------------------------------------------------ what queues hold is not lost

  /** Its consumer has just been handed it, or it was drained from a queue forwarded back. */
  ghost predicate Accounted(s: Sys, t: Sys, id: nat, o: Offset)
    requires id in s.queues
  {
    var r := Rec(s.queues[id].tp, o);
    || (r in t.polled && exists pid ::
          AliveIn(t.workers, pid) && t.workers[pid].queue == id && o in Held(t.workers[pid].proc))
    || (r in t.dropped && s.queues[id].forwarded)
  }

  /** The queues are there, with the same events. */
  ghost predicate QueuesKept(s: Sys, t: Sys) {
    forall id :: id in s.queues ==> id in t.queues && t.queues[id].events == s.queues[id].events
  }

  lemma AssignKeepsQueues(env: Env, s: Sys, parts: seq<Part>, starts: seq<nat>)
    requires |starts| == |parts| && Ids(s.queues, s.workers, s.mailbox, s.nextId)
    ensures QueuesKept(s, OnAssign(s, parts, starts))
  {
  }

  lemma StopKeepsQueues(s: Sys)
    requires s.phase.Stopping?
    ensures s.phase.rest != [] ==> QueuesKept(s, OnStopNext(s))
    ensures s.phase.rest == [] ==> OnStopNext(s).assignment.None?
  {
    hide P.Step;
  }

  lemma TimeoutKeepsQueues(s: Sys)
    requires s.phase.Waiting?
    ensures QueuesKept(s, OnTimeout(s))
  {
    hide P.Die;
  }

  lemma FetchHolds(env: Env, q: Queue, n: nat, o: Offset)
    requires q.next + n <= |env.log(q.tp)| && o in Flatten(q.events)
    ensures o in Flatten(Fetched(env, q, n).events)
  {
    FlattenAppend(q.events, [env.log(q.tp)[q.next..q.next + n]]);
  }

  lemma DrainHolds(s: Sys, id: nat, o: Offset)
    requires id in s.queues && s.queues[id].forwarded && s.queues[id].events != []
    requires o in Flatten(s.queues[id].events)
    ensures var t := OnDrain(s, id); o in Flatten(t.queues[id].events) || Accounted(s, t, id, o)
  {
    assert Flatten(s.queues[id].events) == s.queues[id].events[0] + Flatten(s.queues[id].events[1..]);
  }

  lemma PollHolds(env: Env, s: Sys, pid: nat, e: P.Event, o: Offset)
    requires Inv(env, s) && AliveIn(s.workers, pid) && WorkerCan(env, s, s.workers[pid], e)
    requires s.workers[pid].queue in s.queues && o in Flatten(s.queues[s.workers[pid].queue].events)
    ensures var (t, id) := (OnWorker(env, s, pid, e), s.workers[pid].queue);
      id in t.queues && (o in Flatten(t.queues[id].events) || Accounted(s, t, id, o))
  {
    hide Inv, OnWorker, P.Step, P.Enabled, Flatten, Held, EventsTaken, PollResult;
    var (w, t) := (s.workers[pid], OnWorker(env, s, pid, e));
    WorkerMoved(env, s, pid, e);
    if IsPoll(w.proc, e) {
      QueueOfWorker(env, s, pid);
      PollSplitsQueue(s.queues[w.queue].events, env.maxBatch(w.tp));
      PollIsRecorded(env, s, pid, e);
      PollHands(env, s, pid, e);
      assert e.polled.messages + Flatten(t.queues[w.queue].events) == Flatten(s.queues[w.queue].events);
    }
  }

  lemma QueueOfWorker(env: Env, s: Sys, pid: nat)
    requires Inv(env, s) && AliveIn(s.workers, pid) && s.workers[pid].queue in s.queues
    ensures s.queues[s.workers[pid].queue].tp == s.workers[pid].tp
  {
    WorkerIsOk(env, s, pid);
    hide Inv;
  }

  lemma WorkerMoved(env: Env, s: Sys, pid: nat, e: P.Event)
    requires AliveIn(s.workers, pid) && WorkerCan(env, s, s.workers[pid], e) && s.workers[pid].queue in s.queues
    ensures var (w, t) := (s.workers[pid], OnWorker(env, s, pid, e));
      && pid in t.workers && t.workers[pid] == w.(proc := P.Step(w.proc, e).0)
      && w.queue in t.queues && t.queues[w.queue] == QueueAfter(env, w, e, s.queues[w.queue])
  {
    WorkerShape(env, s, pid, e);
    hide OnWorker, P.Step, P.Enabled, QueueAfter;
  }

  lemma PollIsRecorded(env: Env, s: Sys, pid: nat, e: P.Event)
    requires pid in s.workers && WorkerCan(env, s, s.workers[pid], e)
    requires IsPoll(s.workers[pid].proc, e) && s.workers[pid].queue in s.queues
    ensures var (w, t) := (s.workers[pid], OnWorker(env, s, pid, e));
      && e.polled == PollResult(s.queues[w.queue].events, env.maxBatch(w.tp))
      && forall o :: o in e.polled.messages ==> Rec(w.tp, o) in t.polled
  {
    hide P.Step, P.Enabled, PollResult;
  }

  lemma PollHands(env: Env, s: Sys, pid: nat, e: P.Event)
    requires Inv(env, s) && AliveIn(s.workers, pid) && WorkerCan(env, s, s.workers[pid], e)
    requires IsPoll(s.workers[pid].proc, e)
    ensures var p' := P.Step(s.workers[pid].proc, e).0; p'.Alive() && Held(p') == e.polled.messages
  {
    WorkerOf(env, s, pid);
    hide Inv;
    PollIsHeld(s.workers[pid].proc, e);
  }

  lemma PollIsHeld(p: P.Proc, e: P.Event)
    requires P.Inv(p) && P.Enabled(p, e) && IsPoll(p, e)
    ensures P.Step(p, e).0.Alive() && Held(P.Step(p, e).0) == e.polled.messages
  {
    HeldAfter(p, e);
  }

  /** Theorem. What a queue holds stays in it until the assignment is given up, but for what its
      consumer is handed, which it then holds, and what is drained, and both are recorded. */
  lemma NoQueuedMessageVanishes(env: Env, s: Sys, a: Action, id: nat, o: Offset)
    requires LogsOk(env) && Reachable(env, s) && Can(env, s, a) && EnvAllows(env, s, a)
    requires id in s.queues && o in Flatten(s.queues[id].events)
    ensures var t := Apply(env, s, a);
      || (id in t.queues && o in Flatten(t.queues[id].events))
      || Accounted(s, t, id, o)
      || (a.StopNext? && s.phase.rest == [] && t.assignment.None?)
  {
    hide Inv, OnWorker, OnAssign, OnTake, OnStart, OnStopNext, OnTimeout, OnDrain, Lists, WorkerCan, Reachable,
      Accounted, EnvAllows, Fetched, Flatten;
    ReachableInv(env, s);
    IdsOf(env, s);
    match a
    case WorkerEvent(pid, e) => WorkerEventHolds(env, s, pid, e, id, o);
    case StopTimesOut => TimeoutKeepsQueues(s);
    case StopNext => StopKeepsQueues(s);
    case TakeMail(order) => TakeShape(s, order);
    case AssignCallback(parts, starts) => AssignKeepsQueues(env, s, parts, starts);
    case Fetch(q, n) => if q == id { FetchHolds(env, s.queues[id], n, o); }
    case Drain(q) => DrainStep(s, q, id, o);
    case StartNext(cb) => StartKeepsQueues(env, s, cb);
    case _ =>
  }

  lemma StartKeepsQueues(env: Env, s: Sys, cb: P.Cb)
    requires s.phase.Starting?
    ensures OnStart(env, s, cb).queues == s.queues
  {
  }

  lemma DrainStep(s: Sys, q: nat, id: nat, o: Offset)
    requires q in s.queues && s.queues[q].forwarded && s.queues[q].events != []
    requires id in s.queues && o in Flatten(s.queues[id].events)
    ensures var t := OnDrain(s, q); id in t.queues && (o in Flatten(t.queues[id].events) || Accounted(s, t, id, o))
  {
    hide Flatten, Accounted;
    if q == id { DrainHolds(s, id, o); }
  }

  lemma WorkerEventHolds(env: Env, s: Sys, pid: nat, e: P.Event, id: nat, o: Offset)
    requires Inv(env, s) && pid in s.workers && WorkerCan(env, s, s.workers[pid], e)
    requires id in s.queues && o in Flatten(s.queues[id].events)
    ensures var t := OnWorker(env, s, pid, e);
      id in t.queues && (o in Flatten(t.queues[id].events) || Accounted(s, t, id, o))
  {
    hide Inv, OnWorker, WorkerCan, Flatten, Accounted;
    if !AliveIn(s.workers, pid) {
      DeadStepIsNothing(env, s, pid, e);
    } else {
      WorkerOf(env, s, pid);
      if s.workers[pid].queue == id { PollHolds(env, s, pid, e, o); } else { OthersHold(env, s, pid, e); }
    }
  }

  lemma OthersHold(env: Env, s: Sys, pid: nat, e: P.Event)
    requires AliveIn(s.workers, pid) && WorkerCan(env, s, s.workers[pid], e) && s.workers[pid].queue in s.queues
    ensures var t := OnWorker(env, s, pid, e);
      forall x :: x in s.queues && x != s.workers[pid].queue ==> x in t.queues && t.queues[x] == s.queues[x]
  {
    hide OnWorker;
    WorkerShape(env, s, pid, e);
  }
}
