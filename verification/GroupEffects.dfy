/**
  What the steps of the group protocol bring about: nothing is recorded that did not happen, and
  nothing that happens goes unrecorded.
 */
module GroupEffects {
  import opened Prelude
  import opened Consumer
  import opened QueuePoll
  import opened GroupProtocol
  import opened GroupInvariant
  import opened GroupSteps
  import opened GroupTheorems
  import opened GroupProgress
  import P = ConsumerProcess

  // ---------------------------------------------------------- what is processed, what is stored

  /** Steps of others change neither what is processed nor what is stored. */
  lemma OthersProcessNothing(env: Env, s: Sys, a: Action)
    requires Can(env, s, a) && !a.WorkerEvent?
    ensures Apply(env, s, a).done == s.done && Apply(env, s, a).stored == s.stored
  {
    hide OnTake, OnStart, OnStopNext, OnHearStopped, OnTimeout, OnAssign, Lists, Inv, P.Step;
    match a
    case AssignCallback(parts, starts) => AssignRecords(s, parts, starts);
    case TakeMail(order) => TakeShape(s, order);
    case StartNext(cb) => StartRecords(env, s, cb);
    case StopNext => StopNextRecords(s);
    case HearStopped(i) => HearRecords(s, i);
    case StopTimesOut => TimeoutRecords(s);
    case _ =>
  }

  ghost predicate RecordsNothing(s: Sys, t: Sys) {
    t.done == s.done && t.stored == s.stored && t.polled == s.polled
  }

  lemma AssignRecords(s: Sys, parts: seq<Part>, starts: seq<nat>)
    requires |starts| == |parts|
    ensures RecordsNothing(s, OnAssign(s, parts, starts))
  {
    hide NewQueues;
  }

  lemma StartRecords(env: Env, s: Sys, cb: P.Cb)
    requires s.phase.Starting?
    ensures RecordsNothing(s, OnStart(env, s, cb))
  {
  }

  lemma StopNextRecords(s: Sys)
    requires s.phase.Stopping?
    ensures RecordsNothing(s, OnStopNext(s))
  {
    hide P.Step;
  }

  lemma HearRecords(s: Sys, i: nat)
    requires s.phase.Waiting? && i < |s.mailbox|
    ensures RecordsNothing(s, OnHearStopped(s, i))
  {
  }

  lemma TimeoutRecords(s: Sys)
    requires s.phase.Waiting?
    ensures RecordsNothing(s, OnTimeout(s))
  {
    hide P.Die;
  }

  lemma WorkerRecords(env: Env, s: Sys, pid: nat, e: P.Event)
    requires pid in s.workers && P.Enabled(s.workers[pid].proc, e)
    ensures var (w, t, store) := (s.workers[pid], OnWorker(env, s, pid, e), StoreOut(P.Step(s.workers[pid].proc, e).1));
      && t.done == s.done + Approved(w, e)
      && t.stored == (if store.Some? then s.stored[w.tp := store.value] else s.stored)
      && t.storedNow ==
         if store.Some? && store.value >= 0 then s.storedNow + {Rec(w.tp, store.value)} else s.storedNow
  {
    hide P.Step, P.Enabled, Approved, StoreOut;
  }

  /** Theorem. A message counts as processed when, and only when, the callback that was given it
      returns {:ok, _}: the whole batch polled, or the one message that was its turn. */
  lemma ProcessedIsWhatWasGiven(env: Env, s: Sys, a: Action, r: Rec)
    requires LogsOk(env) && Reachable(env, s) && Can(env, s, a) && EnvAllows(env, s, a)
    ensures !(a.WorkerEvent? && a.event.Return? && a.event.reply.Okay?) ==> Apply(env, s, a).done == s.done
    ensures a.WorkerEvent? && a.event.Return? && a.event.reply.Okay? ==>
      var w := s.workers[a.pid];
      && w.proc.phase.rest != []
      && var given := if w.proc.mode == P.Batch then w.proc.messages else [w.proc.phase.rest[0]];
      && (r in Apply(env, s, a).done <==> r in s.done || (r.tp == w.tp && r.offset in given))
  {
    if a.WorkerEvent? {
      ReachableInv(env, s);
      hide Inv, Reachable, EnvAllows;
      EventRecords(env, s, a.pid, a.event);
    } else {
      OthersProcessNothing(env, s, a);
      hide Apply, Can, Reachable;
    }
  }

  lemma EventRecords(env: Env, s: Sys, pid: nat, e: P.Event)
    requires Inv(env, s) && pid in s.workers && WorkerCan(env, s, s.workers[pid], e)
    ensures !(e.Return? && e.reply.Okay?) ==> OnWorker(env, s, pid, e).done == s.done
    ensures e.Return? && e.reply.Okay? ==>
      var w := s.workers[pid];
      && w.proc.phase.rest != []
      && var given := if w.proc.mode == P.Batch then w.proc.messages else [w.proc.phase.rest[0]];
      && OnWorker(env, s, pid, e).done == s.done + Recs(w.tp, given)
  {
    hide Inv, OnWorker, P.Step, P.Inv;
    WorkerRecords(env, s, pid, e);
    if e.Return? {
      WorkerOf(env, s, pid);
      InCall(s.workers[pid].proc);
    }
  }

  lemma InCall(p: P.Proc)
    requires P.Inv(p) && p.phase.Calling?
    ensures p.phase.rest != [] && CalledNow(p) == if p.mode == P.Batch then p.messages else [p.phase.rest[0]]
  {
  }

  /** What a store writes: the last message of the batch, or the one processed. */
  lemma StoreWrites(p: P.Proc)
    requires P.Inv(p) && p.phase.Storing?
    ensures p.phase.rest != [] && (p.mode == P.Batch ==> p.phase.rest == p.messages)
    ensures StoreOut(P.Step(p, P.Store(true)).1) ==
      Some(if p.mode == P.Batch then p.phase.rest[|p.phase.rest| - 1] else p.phase.rest[0])
  {
  }

  lemma StoreOnly(p: P.Proc, e: P.Event)
    requires P.Enabled(p, e) && e != P.Store(true)
    ensures StoreOut(P.Step(p, e).1) == None
  {
  }

  /** Theorem. An offset is stored when, and only when, a consumer's store succeeds, and it is the
      offset right before the consumer's new place in its log: that of the last message of its
      batch, or of the one message processed. */
  lemma StoredIsLastProcessed(env: Env, s: Sys, a: Action)
    requires LogsOk(env) && Reachable(env, s) && Can(env, s, a) && EnvAllows(env, s, a)
    ensures !(a.WorkerEvent? && a.event == P.Store(true)) ==> Apply(env, s, a).stored == s.stored
    ensures a.WorkerEvent? && a.event == P.Store(true) ==>
      var (t, w) := (Apply(env, s, a), s.workers[a.pid]);
      && w.proc.phase.rest != [] && w.queue in s.queues && w.queue in t.queues
      && var n := Place(s.queues, w) + if w.proc.mode == P.Batch then |w.proc.messages| else 1;
      && Place(t.queues, t.workers[a.pid]) == n && 0 < n <= |env.log(w.tp)|
      && t.stored == s.stored[w.tp := env.log(w.tp)[n - 1]]
      && t.storedNow == s.storedNow + {Rec(w.tp, env.log(w.tp)[n - 1])}
  {
    if a.WorkerEvent? && a.event == P.Store(true) {
      ReachableInv(env, s);
      StoreStep(env, s, a.pid);
    } else if a.WorkerEvent? {
      WorkerRecords(env, s, a.pid, a.event);
      StoreOnly(s.workers[a.pid].proc, a.event);
    } else {
      OthersProcessNothing(env, s, a);
    }
    hide Apply, Can, Reachable, EnvAllows, Inv;
  }

  /** The consumer's part of it: where it stands after the store, `n`, and what is stored. */
  lemma StoreAdvances(env: Env, done: set<Rec>, p: P.Proc, q: Queue, n: int)
    requires P.Inv(p) && p.phase.Storing? && Cursor(env, done, Held(p), q)
    requires n == Head(q) - |Held(p)| + if p.mode == P.Batch then |p.messages| else 1
    ensures p.phase.rest != [] && 0 < n <= |env.log(q.tp)|
    ensures var (p', outs) := P.Step(p, P.Store(true));
      Head(q) - |Held(p')| == n && StoreOut(outs) == Some(env.log(q.tp)[n - 1])
  {
    hide P.Inv, P.Step, Head, Cursor, Held, StoreOut;
    StoreWrites(p);
    HeldAfterStore(p);
    HeldInLog(env, done, Held(p), q, if p.mode == P.Batch then |p.phase.rest| - 1 else 0);
  }

  lemma StoreKeepsQueues(env: Env, s: Sys, pid: nat)
    requires LogsOk(env) && Inv(env, s) && pid in s.workers && WorkerCan(env, s, s.workers[pid], P.Store(true))
    ensures var (w, t) := (s.workers[pid], OnWorker(env, s, pid, P.Store(true)));
      && P.Inv(w.proc) && w.queue in s.queues && Cursor(env, s.done, Held(w.proc), s.queues[w.queue])
      && s.queues[w.queue].tp == w.tp && t.queues == s.queues
      && t.workers[pid] == w.(proc := P.Step(w.proc, P.Store(true)).0)
  {
    WorkerIsOk(env, s, pid);
    WorkerShape(env, s, pid, P.Store(true));
    hide Inv, OnWorker, P.Step, P.Inv, Cursor, StoringSettled, Held;
  }

  lemma StoreStep(env: Env, s: Sys, pid: nat)
    requires LogsOk(env) && Inv(env, s) && pid in s.workers && WorkerCan(env, s, s.workers[pid], P.Store(true))
    ensures var (t, w) := (OnWorker(env, s, pid, P.Store(true)), s.workers[pid]);
      && w.proc.phase.rest != [] && w.queue in s.queues && w.queue in t.queues
      && var n := Place(s.queues, w) + if w.proc.mode == P.Batch then |w.proc.messages| else 1;
      && Place(t.queues, t.workers[pid]) == n && 0 < n <= |env.log(w.tp)|
      && t.stored == s.stored[w.tp := env.log(w.tp)[n - 1]]
      && t.storedNow == s.storedNow + {Rec(w.tp, env.log(w.tp)[n - 1])}
  {
    hide Inv, OnWorker, P.Step, P.Inv, Head, Held, Cursor, StoreOut;
    StoreKeepsQueues(env, s, pid);
    var w := s.workers[pid];
    WorkerRecords(env, s, pid, P.Store(true));
    StoreAdvances(env, s.done, w.proc, s.queues[w.queue],
                  Place(s.queues, w) + if w.proc.mode == P.Batch then |w.proc.messages| else 1);
  }

  lemma HeldAfterStore(p: P.Proc)
    requires P.Inv(p) && p.phase.Storing?
    ensures var p' := P.Step(p, P.Store(true)).0;
      Held(p) == p.phase.rest && Held(p') == if p.mode == P.Batch then [] else p.phase.rest[1..]
  {
  }

  lemma HeldInLog(env: Env, done: set<Rec>, held: seq<Offset>, q: Queue, i: nat)
    requires Cursor(env, done, held, q) && i < |held|
    ensures var at := Head(q) - |held| + i; 0 <= at < |env.log(q.tp)| && env.log(q.tp)[at] == held[i]
  {
  }

  // ------------------------------------------------------------------- what moves the group

  /** Theorem. What the group does next is decided by what it takes from its mailbox. It starts
      consumers for an assign message, for its partitions in their order; it stops consumers for a
      revoke message, those of its partitions in their order, and goes on; it begins to stop them all,
      for good, when a consumer it may have has ended abnormally, when a revoke message names a
      partition it has no consumer for, or on shutdown. Nothing else moves it from its main loop. */
  lemma WhatMovesTheGroup(env: Env, s: Sys, a: Action)
    requires Can(env, s, a) && s.phase.Ready?
    ensures var (t, mail) := (Apply(env, s, a), if a.TakeMail? then Some(s.mailbox[0]) else None);
      && (t.phase.Starting? <==> mail.Some? && mail.value.Assign?)
      && (t.phase.Starting? ==> t.phase.todo == mail.value.parts)
      && (t.phase.Stopping? && t.phase.why == Revoking <==>
            mail.Some? && mail.value.Revoke? && forall tp :: tp in mail.value.tps ==> tp in s.active)
      && (t.phase.Stopping? && t.phase.why == Revoking ==>
            && |t.phase.rest| == |mail.value.tps|
            && forall i :: 0 <= i < |mail.value.tps| ==> t.phase.rest[i] == s.active[mail.value.tps[i]])
      && (Ending(t.phase) <==>
            || a.Shutdown?
            || (mail.Some? && mail.value.Exit? && !mail.value.normal && s.active != map[])
            || (mail.Some? && mail.value.Revoke? && exists tp :: tp in mail.value.tps && tp !in s.active))
      && (Ending(t.phase) ==> t.phase.Stopping? && Lists(t.phase.rest, s.active))
      && !t.phase.Waiting? && !t.phase.Down?
  {
    hide OnAssign, OnWorker, Lists, PairsFor, WorkerCan, P.Step;
    match a
    case AssignCallback(parts, starts) => AssignAssigns(s, parts, starts); AssignKeepsPhase(s, parts, starts);
    case WorkerEvent(pid, e) => WorkerKeepsPhase(env, s, pid, e);
    case TakeMail(order) => TakeMoves(s, order);
    case _ =>
  }

  lemma WorkerKeepsPhase(env: Env, s: Sys, pid: nat, e: P.Event)
    requires pid in s.workers && WorkerCan(env, s, s.workers[pid], e)
    ensures OnWorker(env, s, pid, e).phase == s.phase
  {
    hide P.Enabled, OnWorker;
    WorkerKeepsAssignment(env, s, pid, e);
  }

  lemma TakeMoves(s: Sys, order: seq<Entry>)
    requires s.phase.Ready? && s.mailbox != []
    ensures var (t, mail) := (OnTake(s, order), s.mailbox[0]);
      && (mail.Assign? ==> t.phase == Starting(mail.parts))
      && (mail.Stopped? ==> t.phase == Ready)
      && (mail.Exit? ==> t.phase == if mail.normal || s.active == map[] then Ready else Stopping(order, Terminating))
      && (mail.Revoke? && (exists tp :: tp in mail.tps && tp !in s.active) ==> t.phase == Stopping(order, Terminating))
      && (mail.Revoke? && (forall tp :: tp in mail.tps ==> tp in s.active) ==>
            && t.phase.Stopping? && t.phase.why == Revoking && |t.phase.rest| == |mail.tps|
            && forall i :: 0 <= i < |mail.tps| ==> t.phase.rest[i] == s.active[mail.tps[i]])
  {
  }

  // ------------------------------------------------------------ what a consumer can always do

  lemma OwnSchedule(p: P.Proc)
    requires P.Inv(p) && p.phase.Idle?
    ensures p.mailbox == [] ==> p.timers != []
  {
    assert |P.Pending(p)| == 1;
  }

  /** What the NIF returns is what the consumer expects of it. */
  lemma PollIsExpected(events: seq<seq<Offset>>, maxBatch: nat)
    ensures P.PolledOk(PollResult(events, maxBatch))
  {
    LastIsLast(events, maxBatch);
  }

  lemma CanTake(env: Env, s: Sys, pid: nat) returns (polled: Polled)
    requires AliveIn(s.workers, pid) && s.workers[pid].proc.phase.Idle? && s.workers[pid].proc.mailbox != []
    ensures Can(env, s, WorkerEvent(pid, P.Take(polled)))
  {
    var w := s.workers[pid];
    polled := PollResult(EventsIn(s, w.queue), env.maxBatch(w.tp));
    PollIsExpected(EventsIn(s, w.queue), env.maxBatch(w.tp));
  }

  /** Theorem. No consumer is ever stuck: between handlers it can take its next message, the poll
      included, or have its timer fire; in the loop it can look at its mailbox, hear what the
      callback answers, and store. */
  lemma ConsumerIsNeverStuck(env: Env, s: Sys, pid: nat, reply: Reply<P.Cb>)
    requires LogsOk(env) && Reachable(env, s) && AliveIn(s.workers, pid)
    ensures var p := s.workers[pid].proc;
      && (p.phase.Idle? && p.mailbox == [] ==> Can(env, s, WorkerEvent(pid, P.Fire(0))))
      && (p.phase.Idle? && p.mailbox != [] ==> exists polled :: Can(env, s, WorkerEvent(pid, P.Take(polled))))
      && (p.phase.Receiving? ==> Can(env, s, WorkerEvent(pid, P.Receive)))
      && (p.phase.Calling? ==> Can(env, s, WorkerEvent(pid, P.Return(reply))))
      && (p.phase.Storing? ==> Can(env, s, WorkerEvent(pid, P.Store(true))))
  {
    ReachableInv(env, s);
    WorkerOf(env, s, pid);
    hide Inv, Reachable, Can;
    var p := s.workers[pid].proc;
    if !p.phase.Idle? {
      LoopGoesOn(env, s, pid, reply);
    } else if p.mailbox == [] {
      OwnSchedule(p);
      CanFire(env, s, pid);
    } else {
      var _ := CanTake(env, s, pid);
    }
  }

  lemma CanFire(env: Env, s: Sys, pid: nat)
    requires AliveIn(s.workers, pid) && s.workers[pid].proc.timers != []
    ensures Can(env, s, WorkerEvent(pid, P.Fire(0)))
  {
  }

  lemma LoopGoesOn(env: Env, s: Sys, pid: nat, reply: Reply<P.Cb>)
    requires AliveIn(s.workers, pid) && P.Inv(s.workers[pid].proc)
    ensures var p := s.workers[pid].proc;
      && (p.phase.Receiving? ==> Can(env, s, WorkerEvent(pid, P.Receive)))
      && (p.phase.Calling? ==> Can(env, s, WorkerEvent(pid, P.Return(reply))))
      && (p.phase.Storing? ==> Can(env, s, WorkerEvent(pid, P.Store(true))))
  {
  }

  // ---------------------------------------------------------- each consumer is such a process

  /** The consumer of `w` is what a run of the consumer process makes of a new one. */
  ghost predicate IsConsumer(env: Env, w: Worker) {
    exists cb, events :: P.IsRun(P.Init(env.mode(w.tp), cb), events) &&
                         w.proc == P.After(P.Init(env.mode(w.tp), cb), events)
  }

  lemma NewIsConsumer(env: Env, w: Worker, cb: P.Cb)
    requires w.proc == P.Init(env.mode(w.tp), cb)
    ensures IsConsumer(env, w)
  {
    assert P.IsRun(P.Init(env.mode(w.tp), cb), []) && w.proc == P.After(P.Init(env.mode(w.tp), cb), []);
  }

  lemma StepIsConsumer(env: Env, w: Worker, e: P.Event)
    requires IsConsumer(env, w) && P.Enabled(w.proc, e)
    ensures IsConsumer(env, w.(proc := P.Step(w.proc, e).0))
  {
    var cb, events :| P.IsRun(P.Init(env.mode(w.tp), cb), events) &&
                      w.proc == P.After(P.Init(env.mode(w.tp), cb), events);
    hide P.Step, P.Enabled;
    assert [e][1..] == [];
    P.RunSplits(P.Init(env.mode(w.tp), cb), events, [e]);
  }

  /** A step leaves a consumer as it is, or the consumer takes a step of its own, being killed
      and hearing from the group included. */
  ghost predicate Moves(s: Sys, t: Sys, pid: nat) {
    pid in s.workers ==>
      pid in t.workers && (t.workers[pid] == s.workers[pid] ||
      exists e :: P.Enabled(s.workers[pid].proc, e) &&
                  t.workers[pid] == s.workers[pid].(proc := P.Step(s.workers[pid].proc, e).0))
  }

  lemma TimeoutMoves(s: Sys, pid: nat)
    requires s.phase.Waiting?
    ensures Moves(s, OnTimeout(s), pid) && OnTimeout(s).workers.Keys == s.workers.Keys
  {
    var e := s.phase.entry;
    if AliveIn(s.workers, e.pid) {
      assert P.Enabled(s.workers[e.pid].proc, P.Crash);
    }
  }

  lemma StopNextMoves(s: Sys, pid: nat)
    requires s.phase.Stopping?
    ensures Moves(s, OnStopNext(s), pid) && OnStopNext(s).workers.Keys == s.workers.Keys
  {
    hide P.Step;
    if s.phase.rest != [] && AliveIn(s.workers, s.phase.rest[0].pid) {
      assert P.Enabled(s.workers[s.phase.rest[0].pid].proc, StopMail(s.nextId));
    }
  }

  lemma StartMoves(env: Env, s: Sys, cb: P.Cb, pid: nat)
    requires s.phase.Starting? && s.nextId !in s.workers
    ensures var t := OnStart(env, s, cb);
      && Moves(s, t, pid)
      && (pid in t.workers && pid !in s.workers ==> t.workers[pid].proc == P.Init(env.mode(t.workers[pid].tp), cb))
  {
  }

  lemma WorkerMoves(env: Env, s: Sys, x: nat, e: P.Event, pid: nat)
    requires x in s.workers && WorkerCan(env, s, s.workers[x], e)
    ensures Moves(s, OnWorker(env, s, x, e), pid) && OnWorker(env, s, x, e).workers.Keys == s.workers.Keys
  {
    hide P.Step, P.Enabled, OnWorker;
    WorkerKeepsAssignment(env, s, x, e);
  }

  lemma StaysPut(s: Sys, t: Sys, pid: nat)
    requires t.workers == s.workers
    ensures Moves(s, t, pid)
  {
  }

  lemma StepMoves(env: Env, s: Sys, a: Action, pid: nat)
    requires Inv(env, s) && Can(env, s, a)
    ensures var t := Apply(env, s, a);
      && Moves(s, t, pid)
      && (pid in t.workers && pid !in s.workers ==>
            a.StartNext? && t.workers[pid].proc == P.Init(env.mode(t.workers[pid].tp), a.cb))
  {
    IdsOf(env, s);
    hide Inv, OnWorker, OnAssign, OnTake, OnStart, OnHearStopped, OnTimeout, OnStopNext, P.Step, P.Enabled, Lists,
      WorkerCan, Moves;
    match a
    case WorkerEvent(x, e) => WorkerMoves(env, s, x, e, pid);
    case AssignCallback(parts, starts) => AssignAssigns(s, parts, starts); StaysPut(s, OnAssign(s, parts, starts), pid);
    case TakeMail(order) => TakeShape(s, order); StaysPut(s, OnTake(s, order), pid);
    case StartNext(cb) => StartMoves(env, s, cb, pid);
    case HearStopped(i) => HearStoppedKeepsWorkers(s, i); StaysPut(s, OnHearStopped(s, i), pid);
    case StopTimesOut => TimeoutMoves(s, pid);
    case StopNext => StopNextMoves(s, pid);
    case _ => StaysPut(s, Apply(env, s, a), pid);
  }

  ghost predicate AllAreConsumers(env: Env, workers: map<nat, Worker>) {
    forall pid :: pid in workers ==> IsConsumer(env, workers[pid])
  }

  lemma StepKeepsConsumers(env: Env, s: Sys, a: Action)
    requires Inv(env, s) && Can(env, s, a) && AllAreConsumers(env, s.workers)
    ensures AllAreConsumers(env, Apply(env, s, a).workers)
  {
    hide Inv, Can, Apply, IsConsumer, P.Step, P.Enabled, P.Init;
    var t := Apply(env, s, a);
    forall pid | pid in t.workers ensures IsConsumer(env, t.workers[pid]) {
      StepMoves(env, s, a, pid);
      if pid !in s.workers {
        NewIsConsumer(env, t.workers[pid], a.cb);
      } else if t.workers[pid] != s.workers[pid] {
        var e :| P.Enabled(s.workers[pid].proc, e) &&
                 t.workers[pid] == s.workers[pid].(proc := P.Step(s.workers[pid].proc, e).0);
        StepIsConsumer(env, s.workers[pid], e);
      }
    }
  }

  lemma {:induction false} RunKeepsConsumers(env: Env, s: Sys, actions: seq<Action>)
    requires LogsOk(env) && Inv(env, s) && IsRun(env, s, actions) && AllAreConsumers(env, s.workers)
    ensures AllAreConsumers(env, After(env, s, actions).workers)
    decreases |actions|
  {
    hide Inv, Can, Apply, EnvAllows, AllAreConsumers;
    if actions == [] {
    } else {
      StepKeepsInv(env, s, actions[0]);
      StepKeepsConsumers(env, s, actions[0]);
      RunKeepsConsumers(env, Apply(env, s, actions[0]), actions[1..]);
    }
  }

  /** Theorem. Every consumer the group ever started is at the end of a run of the consumer
      process, so that all that is proved of those runs holds of it. */
  lemma ConsumersRunAsProcesses(env: Env, s: Sys, pid: nat)
    requires LogsOk(env) && Reachable(env, s) && pid in s.workers
    ensures var w := s.workers[pid];
      exists cb, events :: P.IsRun(P.Init(env.mode(w.tp), cb), events) &&
                           w.proc == P.After(P.Init(env.mode(w.tp), cb), events)
  {
    hide Inv;
    var actions :| IsRun(env, Init(), actions) && s == After(env, Init(), actions);
    InitInv(env);
    RunKeepsConsumers(env, Init(), actions);
    assert IsConsumer(env, s.workers[pid]);
  }
}
