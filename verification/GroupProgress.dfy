/**
  What the group protocol cannot fail to bring about.
 */
module GroupProgress {
  import opened Prelude
  import opened QueuePoll
  import opened GroupProtocol
  import opened GroupInvariant
  import opened GroupSteps
  import opened GroupTheorems
  import P = ConsumerProcess

  // ------------------------------------------------------------- stop_consumers comes to an end

  predicate InStop(phase: Phase) {
    phase.Stopping? || phase.Waiting?
  }

  /** More than the steps that stop_consumers still has to take. */
  function Work(phase: Phase): nat {
    match phase
    case Stopping(rest, _) => 2 * |rest| + 1
    case Waiting(_, _, rest, _) => 2 * |rest| + 2
    case _ => 0
  }

  predicate IsStopStep(a: Action) {
    a.StopNext? || a.HearStopped? || a.StopTimesOut?
  }

  function StopSteps(actions: seq<Action>): nat {
    if actions == [] then 0 else (if IsStopStep(actions[0]) then 1 else 0) + StopSteps(actions[1..])
  }

  ghost predicate StaysInStop(env: Env, s: Sys, actions: seq<Action>)
    requires IsRun(env, s, actions)
    decreases |actions|
  {
    InStop(s.phase) && (actions == [] || StaysInStop(env, Apply(env, s, actions[0]), actions[1..]))
  }

  lemma AssignKeepsPhase(s: Sys, parts: seq<Part>, starts: seq<nat>)
    requires |starts| == |parts|
    ensures OnAssign(s, parts, starts).phase == s.phase
  {
    hide NewQueues;
  }

  lemma StopStepWorks(s: Sys, a: Action)
    requires InStop(s.phase)
    ensures s.phase.Stopping? ==> var t := OnStopNext(s); InStop(t.phase) ==> Work(t.phase) < Work(s.phase)
    ensures s.phase.Waiting? ==> Work(OnTimeout(s).phase) < Work(s.phase)
    ensures s.phase.Waiting? && a.HearStopped? && a.at < |s.mailbox| ==>
      Work(OnHearStopped(s, a.at).phase) < Work(s.phase)
  {
    hide P.Step, P.Die;
  }

  lemma StepWorks(env: Env, s: Sys, a: Action)
    requires Can(env, s, a) && InStop(s.phase) && InStop(Apply(env, s, a).phase)
    ensures Work(Apply(env, s, a).phase) + (if IsStopStep(a) then 1 else 0) <= Work(s.phase)
  {
    hide OnAssign, OnWorker, OnStart, OnTake, OnStopNext, OnHearStopped, OnTimeout, Lists, P.Enabled, P.Step;
    StopStepWorks(s, a);
    match a
    case AssignCallback(parts, starts) => AssignKeepsPhase(s, parts, starts);
    case WorkerEvent(pid, e) => WorkerKeepsAssignment(env, s, pid, e);
    case _ =>
  }

  /** Theorem. Whatever consumers, librdkafka and mail do meanwhile, stop_consumers has done its
      work for n consumers after at most 2n steps of its own: nobody can hold a revoke up. */
  lemma {:induction false} StopConsumersEnds(env: Env, s: Sys, actions: seq<Action>)
    requires IsRun(env, s, actions) && StaysInStop(env, s, actions)
    ensures StopSteps(actions) < Work(s.phase)
    decreases |actions|
  {
    hide Can, Apply, EnvAllows, Work;
    if actions == [] {
      StopHasWork(s.phase);
    } else {
      StepWorks(env, s, actions[0]);
      StopConsumersEnds(env, Apply(env, s, actions[0]), actions[1..]);
    }
  }

  lemma StopHasWork(phase: Phase)
    requires InStop(phase)
    ensures Work(phase) > 0
  {
  }

  lemma StopStepEnds(env: Env, s: Sys, a: Action)
    requires a == if s.phase.Stopping? then StopNext else StopTimesOut
    requires InStop(s.phase)
    ensures Can(env, s, a) && EnvAllows(env, s, a)
    ensures var t := Apply(env, s, a);
      && (InStop(t.phase) ==> t.phase.why == s.phase.why && Work(t.phase) < Work(s.phase))
      && (!InStop(t.phase) ==>
            && t.phase == (if s.phase.why == Revoking then Ready else Down)
            && t.assignment.None? && !t.revoking && t.queues == map[] && t.active == map[])
  {
    hide P.Step, P.Die;
    StopStepWorks(s, a);
  }

  /** Theorem. Nor can the group get stuck in it: wherever it stands, steps of its own alone, at
      most 2n + 1 for n consumers, take it to the end, where nothing is assigned any more. */
  lemma {:induction false} StopReachesEnd(env: Env, s: Sys) returns (actions: seq<Action>)
    requires InStop(s.phase)
    ensures IsRun(env, s, actions) && |actions| == StopSteps(actions) <= Work(s.phase)
    ensures var t := After(env, s, actions);
      && t.phase == (if s.phase.why == Revoking then Ready else Down)
      && t.assignment.None? && !t.revoking && t.queues == map[] && t.active == map[]
    decreases Work(s.phase)
  {
    hide Can, EnvAllows, Apply, Work;
    var a := if s.phase.Stopping? then StopNext else StopTimesOut;
    StopStepEnds(env, s, a);
    StopHasWork(s.phase);
    var t := Apply(env, s, a);
    assert [a][1..] == [];
    if InStop(t.phase) {
      var rest := StopReachesEnd(env, t);
      actions := [a] + rest;
      assert actions[1..] == rest;
    } else {
      actions := [a];
      assert StopSteps([a]) == 1 + StopSteps([a][1..]);
    }
  }

  // --------------------------------------------------------------- consumers come to every message

  /** How far a consumer has got in its partition's log: the messages before this place are
      settled, and the ones it holds and those in its queue follow. */
  function Place(queues: map<nat, Queue>, w: Worker): int
    requires w.queue in queues
  {
    Head(queues[w.queue]) - |Held(w.proc)|
  }

  predicate IsStoreBy(a: Action, pid: nat) {
    a == WorkerEvent(pid, P.Store(true))
  }

  function One(b: bool): nat {
    if b then 1 else 0
  }

  /** The consumer is where it was, or further on. */
  ghost predicate GoesOn(s: Sys, t: Sys, pid: nat, n: nat) {
    AliveIn(s.workers, pid) && s.workers[pid].queue in s.queues && AliveIn(t.workers, pid) ==>
      && t.workers[pid].tp == s.workers[pid].tp && t.workers[pid].queue in t.queues
      && Place(t.queues, t.workers[pid]) >= Place(s.queues, s.workers[pid]) + n
  }

  lemma PollMovesHead(q: Queue, maxBatch: nat)
    ensures Head(q.(events := q.events[EventsTaken(q.events, maxBatch)..])) ==
      Head(q) + |PollResult(q.events, maxBatch).messages|
  {
    PollSplitsQueue(q.events, maxBatch);
  }

  lemma OwnStepGoesOn(env: Env, w: Worker, e: P.Event, q: Queue)
    requires P.Inv(w.proc) && P.Enabled(w.proc, e) && P.Step(w.proc, e).0.Alive()
    requires IsPoll(w.proc, e) ==> e.polled == PollResult(q.events, env.maxBatch(w.tp))
    ensures Head(QueueAfter(env, w, e, q)) - |Held(P.Step(w.proc, e).0)| >=
      Head(q) - |Held(w.proc)| + One(e == P.Store(true))
  {
    HeldAfter(w.proc, e);
    PollMovesHead(q, env.maxBatch(w.tp));
    hide P.Inv, P.Enabled, P.Step, Head, Held;
  }

  lemma OwnGoesOn(env: Env, s: Sys, pid: nat, e: P.Event)
    requires Inv(env, s) && AliveIn(s.workers, pid) && WorkerCan(env, s, s.workers[pid], e)
    ensures GoesOn(s, OnWorker(env, s, pid, e), pid, One(e == P.Store(true)))
  {
    hide Inv, OnWorker, P.Step, P.Enabled, P.Inv, Head, Held, QueueAfter, WorkerOk, QueueOk;
    WorkerOf(env, s, pid);
    WorkerShape(env, s, pid, e);
    var w := s.workers[pid];
    if P.Step(w.proc, e).0.Alive() { OwnStepGoesOn(env, w, e, s.queues[w.queue]); }
  }

  lemma WorkerOf(env: Env, s: Sys, pid: nat)
    requires Inv(env, s) && AliveIn(s.workers, pid)
    ensures var w := s.workers[pid]; P.Inv(w.proc) && w.queue in s.queues && !s.queues[w.queue].forwarded
  {
    WorkerIsOk(env, s, pid);
    hide Inv;
  }

  lemma OtherGoesOn(env: Env, s: Sys, x: nat, e: P.Event, pid: nat)
    requires Inv(env, s) && AliveIn(s.workers, x) && AliveIn(s.workers, pid) && x != pid &&
      WorkerCan(env, s, s.workers[x], e)
    ensures GoesOn(s, OnWorker(env, s, x, e), pid, 0)
  {
    WorkerOf(env, s, x);
    QueuesAreOwn(env, s, x, pid);
    WorkerShape(env, s, x, e);
    hide Inv, OnWorker, P.Step, P.Enabled, Head, Held, QueueAfter, WorkerCan;
  }

  lemma WorkerGoesOn(env: Env, s: Sys, x: nat, e: P.Event, pid: nat)
    requires Inv(env, s) && x in s.workers && WorkerCan(env, s, s.workers[x], e)
    ensures GoesOn(s, OnWorker(env, s, x, e), pid, One(IsStoreBy(WorkerEvent(x, e), pid)))
  {
    hide Inv, OnWorker, WorkerCan, Place;
    if !AliveIn(s.workers, x) {
      DeadStepIsNothing(env, s, x, e);
    } else if AliveIn(s.workers, pid) {
      if x == pid { OwnGoesOn(env, s, pid, e); } else { OtherGoesOn(env, s, x, e, pid); }
    }
  }

  lemma FetchGoesOn(env: Env, s: Sys, id: nat, n: nat, pid: nat)
    requires Can(env, s, Fetch(id, n))
    ensures GoesOn(s, OnFetch(env, s, id, n), pid, 0)
  {
    hide Head, Held, Fetched;
    FetchKeepsHead(env, s.queues[id], n);
  }

  lemma DrainGoesOn(env: Env, s: Sys, id: nat, pid: nat)
    requires Inv(env, s) && Can(env, s, Drain(id))
    ensures GoesOn(s, OnDrain(s, id), pid, 0)
  {
    hide Inv, Head, Held;
    if AliveIn(s.workers, pid) { WorkerOf(env, s, pid); }
  }

  lemma FetchKeepsHead(env: Env, q: Queue, n: nat)
    requires q.next + n <= |env.log(q.tp)|
    ensures Head(Fetched(env, q, n)) == Head(q)
  {
    var got := env.log(q.tp)[q.next..q.next + n];
    FlattenAppend(q.events, [got]);
    FlattenOne(got);
  }

  lemma AssignGoesOn(env: Env, s: Sys, parts: seq<Part>, starts: seq<nat>, pid: nat)
    requires Inv(env, s) && |starts| == |parts| && EnvAllows(env, s, AssignCallback(parts, starts))
    ensures GoesOn(s, OnAssign(s, parts, starts), pid, 0)
  {
    if s.running { NothingAssigned(env, s); }
    hide Inv, NewQueues;
  }

  lemma ForwardKeepsHeads(s: Sys, queue: nat)
    ensures ForwardBack(s, queue).queues.Keys == s.queues.Keys
    ensures forall id :: id in s.queues ==> Head(ForwardBack(s, queue).queues[id]) == Head(s.queues[id])
  {
  }

  lemma StopGoesOn(env: Env, s: Sys, a: Action, pid: nat)
    requires Inv(env, s) && Can(env, s, a) && IsStopStep(a)
    ensures GoesOn(s, Apply(env, s, a), pid, 0)
  {
    match a
    case StopNext => StopNextGoesOn(env, s, pid);
    case HearStopped(i) =>
      ForwardKeepsHeads(s, s.phase.entry.queue);
      hide Inv, ForwardBack, Head, Held;
      ForwardKeepsWorkers(s, s.phase.entry.queue);
    case StopTimesOut => TimeoutGoesOn(s, pid);
  }

  lemma TimeoutGoesOn(s: Sys, pid: nat)
    requires s.phase.Waiting?
    ensures GoesOn(s, OnTimeout(s), pid, 0)
  {
    hide ForwardBack, Head, Held;
    var e := s.phase.entry;
    var t := if AliveIn(s.workers, e.pid) then
               SetProc(s, e.pid, P.Die(s.workers[e.pid].proc, false)).(mailbox := s.mailbox + [Exit(e.pid, false)])
             else s;
    ForwardKeepsHeads(t, e.queue);
    ForwardKeepsWorkers(t, e.queue);
  }

  lemma DeliveryHolds(p: P.Proc, tag: nat)
    ensures Held(P.Step(p, StopMail(tag)).0) == Held(p)
  {
  }

  lemma AskGoesOn(s: Sys, pid: nat)
    requires s.phase.Stopping? && s.phase.rest != [] && AliveIn(s.workers, s.phase.rest[0].pid)
    ensures GoesOn(s, OnStopNext(s), pid, 0)
  {
    DeliveryHolds(s.workers[s.phase.rest[0].pid].proc, s.nextId);
    hide P.Step, P.Enabled, Head, Held;
  }

  lemma StopNextGoesOn(env: Env, s: Sys, pid: nat)
    requires Inv(env, s) && s.phase.Stopping?
    ensures GoesOn(s, OnStopNext(s), pid, 0)
  {
    if s.phase.rest == [] {
      NobodyLeft(s);
      hide Inv, OnStopNext;
    } else if AliveIn(s.workers, s.phase.rest[0].pid) {
      AskGoesOn(s, pid);
      hide Inv, OnStopNext, GoesOn;
    } else {
      var e := s.phase.rest[0];
      ForwardKeepsHeads(s, e.queue);
      ForwardKeepsWorkers(s, e.queue);
      hide Inv, ForwardBack, Head, Held, P.Enabled, P.Step;
    }
  }

  lemma StepGoesOn(env: Env, s: Sys, a: Action, pid: nat)
    requires Inv(env, s) && Can(env, s, a) && EnvAllows(env, s, a)
    ensures GoesOn(s, Apply(env, s, a), pid, One(IsStoreBy(a, pid)))
  {
    hide Inv, Lists, WorkerCan, OnAssign, OnStopNext, OnHearStopped, OnTimeout, OnWorker, OnFetch, OnDrain, EnvAllows,
      Place;
    match a
    case AssignCallback(parts, starts) => AssignGoesOn(env, s, parts, starts, pid);
    case Fetch(id, n) => FetchGoesOn(env, s, id, n, pid);
    case Drain(id) => DrainGoesOn(env, s, id, pid);
    case StopNext => StopGoesOn(env, s, a, pid);
    case HearStopped(_) => StopGoesOn(env, s, a, pid);
    case StopTimesOut => StopGoesOn(env, s, a, pid);
    case WorkerEvent(x, e) => WorkerGoesOn(env, s, x, e, pid);
    case TakeMail(order) => TakeGoesOn(s, order, pid);
    case StartNext(cb) => StartGoesOn(env, s, cb, pid);
    case _ =>
  }

  lemma TakeGoesOn(s: Sys, order: seq<Entry>, pid: nat)
    requires s.mailbox != []
    ensures GoesOn(s, OnTake(s, order), pid, 0)
  {
    TakeShape(s, order);
    hide PairsFor;
  }

  lemma StartGoesOn(env: Env, s: Sys, cb: P.Cb, pid: nat)
    requires Inv(env, s) && s.phase.Starting?
    ensures GoesOn(s, OnStart(env, s, cb), pid, 0)
  {
    IdsOf(env, s);
    hide Inv;
  }

  function StoresBy(actions: seq<Action>, pid: nat): nat {
    if actions == [] then 0 else One(IsStoreBy(actions[0], pid)) + StoresBy(actions[1..], pid)
  }

  /** The consumer lives all through the run. */
  ghost predicate LivesThrough(env: Env, s: Sys, actions: seq<Action>, pid: nat)
    requires IsRun(env, s, actions)
    decreases |actions|
  {
    AliveIn(s.workers, pid) && (actions == [] || LivesThrough(env, Apply(env, s, actions[0]), actions[1..], pid))
  }

  lemma {:induction false} RunGoesOn(env: Env, s: Sys, actions: seq<Action>, pid: nat)
    requires LogsOk(env) && Inv(env, s) && IsRun(env, s, actions) && LivesThrough(env, s, actions, pid)
    requires s.workers[pid].queue in s.queues
    ensures var t := After(env, s, actions);
      && AliveIn(t.workers, pid) && t.workers[pid].tp == s.workers[pid].tp && t.workers[pid].queue in t.queues
      && Place(t.queues, t.workers[pid]) >= Place(s.queues, s.workers[pid]) + StoresBy(actions, pid)
    decreases |actions|
  {
    hide Inv, Can, Apply, EnvAllows, Place;
    if actions == [] {
    } else {
      StepKeepsInv(env, s, actions[0]);
      StepGoesOn(env, s, actions[0], pid);
      RunGoesOn(env, Apply(env, s, actions[0]), actions[1..], pid);
    }
  }

  /** Theorem. No message is passed over: if `d` messages lie between where a consumer stands in
      its log and a message that is not processed, then once the consumer, living on, has stored
      more than `d` offsets, the callback for that message has returned {:ok, _}. */
  lemma NoMessageIsPassedOver(env: Env, s: Sys, actions: seq<Action>, pid: nat, i: nat)
    requires LogsOk(env) && Reachable(env, s) && IsRun(env, s, actions) && LivesThrough(env, s, actions, pid)
    ensures s.workers[pid].queue in s.queues
    ensures var (tp, place) := (s.workers[pid].tp, Place(s.queues, s.workers[pid]));
      && 0 <= place <= |env.log(tp)|
      && (forall j :: 0 <= j < place ==> Settled(env, s.done, tp, env.log(tp)[j]))
      && (i < |env.log(tp)| && StoresBy(actions, pid) > i - place ==>
           Settled(env, After(env, s, actions).done, tp, env.log(tp)[i]))
  {
    hide Inv, Place, Head, Held;
    ReachableInv(env, s);
    PlaceIsSettled(env, s, pid);
    RunGoesOn(env, s, actions, pid);
    RunKeepsInv(env, s, actions);
    PlaceIsSettled(env, After(env, s, actions), pid);
  }

  lemma PlaceIsSettled(env: Env, s: Sys, pid: nat)
    requires Inv(env, s) && AliveIn(s.workers, pid)
    ensures s.workers[pid].queue in s.queues
    ensures var (tp, place) := (s.workers[pid].tp, Place(s.queues, s.workers[pid]));
      0 <= place <= |env.log(tp)| && forall j :: 0 <= j < place ==> Settled(env, s.done, tp, env.log(tp)[j])
  {
    WorkerIsOk(env, s, pid);
    hide Inv;
  }
}
