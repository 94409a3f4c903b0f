/**
  What the group protocol guarantees over every run.
 */
module GroupTheorems {
  import opened Prelude
  import opened Consumer
  import opened GroupProtocol
  import opened GroupInvariant
  import opened GroupSteps
  import P = ConsumerProcess

  /** `s` can be reached from the start by the program in an allowed environment. */
  ghost predicate Reachable(env: Env, s: Sys) {
    exists actions :: IsRun(env, Init(), actions) && s == After(env, Init(), actions)
  }

  lemma ReachableInv(env: Env, s: Sys)
    requires LogsOk(env) && Reachable(env, s)
    ensures Inv(env, s)
  {
    hide Inv;
    var actions :| IsRun(env, Init(), actions) && s == After(env, Init(), actions);
    InitInv(env);
    RunKeepsInv(env, Init(), actions);
  }

  // ------------------------------------------------------------------ at least once

  /** Theorem. The stored offset of a partition never passes a message whose callback has not
      returned {:ok, _}. */
  lemma StoredNeverPassesUnprocessed(env: Env, s: Sys, tp: TP, o: Offset)
    requires LogsOk(env) && Reachable(env, s)
    requires o in env.log(tp) && o <= StoredOf(env, s.stored, tp)
    ensures Rec(tp, o) in s.done || o <= env.origin(tp)
  {
    ReachableInv(env, s);
    assert StoredSafe(env, s.done, tp, StoredOf(env, s.stored, tp));
  }

  /** Theorem. Whatever was polled and has not been processed is delivered again when its
      partition is next assigned, wherever librdkafka then restarts. */
  lemma UnprocessedIsRedelivered(env: Env, s: Sys, parts: seq<Part>, starts: seq<nat>, k: nat, r: Rec)
    requires LogsOk(env) && Reachable(env, s) && s.running
    requires var a := AssignCallback(parts, starts); Can(env, s, a) && EnvAllows(env, s, a)
    requires k < |parts| && parts[k].tp == r.tp
    requires r in s.polled && r !in s.done && r.offset > env.origin(r.tp)
    ensures r.offset in env.log(r.tp)[starts[k]..]
  {
    ReachableInv(env, s);
    assert PolledInLog(env, s.polled);
    var log := env.log(r.tp);
    var i :| 0 <= i < |log| && log[i] == r.offset;
    assert RestartsNoLater(env, s.stored, r.tp, starts[k]);
    if r.offset <= StoredOf(env, s.stored, r.tp) { StoredNeverPassesUnprocessed(env, s, r.tp, r.offset); }
    assert log[starts[k]..][i - starts[k]] == r.offset;
  }

  /** Theorem. While a consumer lives, every message of its partition that is not processed is
      in its hands, in its queue, or still to be fetched. */
  lemma NothingIsLost(env: Env, s: Sys, pid: nat, o: Offset)
    requires LogsOk(env) && Reachable(env, s) && AliveIn(s.workers, pid)
    requires var tp := s.workers[pid].tp; o in env.log(tp) && Rec(tp, o) !in s.done && o > env.origin(tp)
    ensures s.workers[pid].queue in s.queues
    ensures var (w, q) := (s.workers[pid], s.queues[s.workers[pid].queue]);
      q.next <= |env.log(w.tp)| && o in Held(w.proc) + Flatten(q.events) + env.log(w.tp)[q.next..]
  {
    ReachableInv(env, s);
    assert Delivery(env, s.done, s.workers, s.queues);
    StretchesCover(env, s.done, Held(s.workers[pid].proc), s.queues[s.workers[pid].queue], o);
  }

  lemma StretchesCover(env: Env, done: set<Rec>, held: seq<Offset>, q: Queue, o: Offset)
    requires Cursor(env, done, held, q) && o in env.log(q.tp) && !Settled(env, done, q.tp, o)
    ensures o in held + Flatten(q.events) + env.log(q.tp)[q.next..]
  {
    var log, a, h := env.log(q.tp), Head(q) - |held|, Head(q);
    var i :| 0 <= i < |log| && log[i] == o;
    assert i >= a;
    InOneOfThree(log, a, h, q.next, i);
  }

  lemma InOneOfThree(log: seq<Offset>, a: nat, b: nat, c: nat, i: nat)
    requires a <= b <= c <= |log| && a <= i < |log|
    ensures log[i] in log[a..b] + log[b..c] + log[c..]
  {
    if i < b { assert log[a..b][i - a] == log[i]; }
    else if i < c { assert log[b..c][i - b] == log[i]; }
    else { assert log[c..][i - c] == log[i]; }
  }

  /** Theorem. A consumer with nothing in hand, nothing queued and nothing left to fetch has
      processed its whole partition. */
  lemma CaughtUpHasProcessedAll(env: Env, s: Sys, pid: nat)
    requires LogsOk(env) && Reachable(env, s) && AliveIn(s.workers, pid)
    requires var w := s.workers[pid];
      && Held(w.proc) == [] && w.queue in s.queues
      && Flatten(s.queues[w.queue].events) == [] && s.queues[w.queue].next == |env.log(w.tp)|
    ensures var tp := s.workers[pid].tp; forall o :: o in env.log(tp) ==> Rec(tp, o) in s.done || o <= env.origin(tp)
  {
    var tp := s.workers[pid].tp;
    forall o | o in env.log(tp) ensures Rec(tp, o) in s.done || o <= env.origin(tp) {
      if Rec(tp, o) !in s.done && o > env.origin(tp) { NothingIsLost(env, s, pid, o); }
    }
  }

  /** Theorem. Messages dropped from the main queue in the revoke window lie strictly above
      every offset stored for their partition in that assignment, earlier or later. */
  lemma DroppedIsAboveStored(env: Env, s: Sys, d: Rec, r: Rec)
    requires LogsOk(env) && Reachable(env, s)
    requires d in s.dropped && r in s.storedNow && d.tp == r.tp
    ensures r.offset < d.offset
  {
    ReachableInv(env, s);
  }

  // ------------------------------------------------------------------- rebalance

  /** What the waiting rebalance messages will make of a set of partitions. */
  function Replay(covered: set<TP>, mailbox: seq<Mail>): set<TP>
    decreases |mailbox|
  {
    if mailbox == [] then covered
    else
      match mailbox[0]
      case Assign(parts) => Replay(covered + SetOf(TpsOf(parts)), mailbox[1..])
      case Revoke(_) => Replay({}, mailbox[1..])
      case _ => Replay(covered, mailbox[1..])
  }

  lemma {:induction false} ReplayRebalances(covered: set<TP>, mailbox: seq<Mail>)
    ensures Replay(covered, mailbox) == Replay(covered, Rebalances(mailbox))
    decreases |mailbox|
  {
    if mailbox == [] {
    } else {
      var head, rest := mailbox[0], Rebalances(mailbox[1..]);
      match head
      case Assign(parts) =>
        ReplayRebalances(covered + SetOf(TpsOf(parts)), mailbox[1..]);
        ReplayHead(covered, head, rest);
      case Revoke(_) =>
        ReplayRebalances({}, mailbox[1..]);
        ReplayHead(covered, head, rest);
      case _ =>
        ReplayRebalances(covered, mailbox[1..]);
        assert Rebalances(mailbox) == rest;
        assert Replay(covered, mailbox) == Replay(covered, mailbox[1..]);
    }
  }

  lemma ReplayHead(covered: set<TP>, head: Mail, rest: seq<Mail>)
    ensures head.Assign? ==> Replay(covered, [head] + rest) == Replay(covered + SetOf(TpsOf(head.parts)), rest)
    ensures head.Revoke? ==> Replay(covered, [head] + rest) == Replay({}, rest)
    ensures head.Exit? || head.Stopped? ==> Replay(covered, [head] + rest) == Replay(covered, rest)
  {
    assert ([head] + rest)[1..] == rest;
  }

  /** Every partition the group has a consumer for, is starting one for or is stopping. */
  function Covered(s: Sys): set<TP> {
    s.active.Keys + if s.phase.Starting? then SetOf(TpsOf(s.phase.todo)) else {}
  }

  lemma AnnouncedShape(revoking: bool, assignment: Option<set<TP>>, waiting: seq<Mail>, covered: set<TP>)
    requires Announced(revoking, assignment, waiting, covered)
    ensures |waiting| <= 2 && (|waiting| == 2 ==> waiting[0].Assign? && waiting[1].Revoke?)
  {
    if revoking { assert waiting == waiting[..|waiting| - 1] + [waiting[|waiting| - 1]]; }
  }

  lemma ReplayAnnounced(revoking: bool, assignment: Option<set<TP>>, waiting: seq<Mail>, covered: set<TP>)
    requires Announced(revoking, assignment, waiting, covered)
    ensures Replay(covered, waiting) == if revoking then {} else assignment.GetOr({})
    ensures revoking ==> Replay(covered, waiting[..|waiting| - 1]) == assignment.GetOr({})
  {
    AnnouncedShape(revoking, assignment, waiting, covered);
    if waiting != [] {
      ReplayHead(covered, waiting[0], waiting[1..]);
      assert waiting == [waiting[0]] + waiting[1..];
      if |waiting| == 2 {
        assert waiting[1..] == [waiting[1]] + [];
        ReplayHead(covered + SetOf(TpsOf(waiting[0].parts)), waiting[1], []);
        ReplayHead(covered, waiting[0], []);
        assert waiting[..1] == [waiting[0]] + [];
      }
    }
  }

  /** Theorem. Between handlers and while consumers are being started, replaying the waiting
      assign and revoke messages over the map yields librdkafka's assignment; nothing at all
      when a revoke is among them, and then the messages before it yield the assignment. */
  lemma ReplayYieldsAssignment(env: Env, s: Sys)
    requires LogsOk(env) && Reachable(env, s) && (s.phase.Ready? || s.phase.Starting?)
    ensures Replay(Covered(s), s.mailbox) == if s.revoking then {} else Outstanding(s)
    ensures s.revoking ==>
      var told := Rebalances(s.mailbox);
      && told != [] && told[|told| - 1].Revoke? && SetOf(told[|told| - 1].tps) == Outstanding(s)
      && Replay(Covered(s), told[..|told| - 1]) == Outstanding(s)
  {
    ReachableInv(env, s);
    ReplayRebalances(Covered(s), s.mailbox);
    ReplayAnnounced(s.revoking, s.assignment, Rebalances(s.mailbox), Covered(s));
  }

  /** Theorem. While a revoke is being carried out the map shows exactly what is assigned, and
      no rebalance message waits; and at no time does it show more than that. */
  lemma MapDuringRevoke(env: Env, s: Sys)
    requires LogsOk(env) && Reachable(env, s)
    requires (s.phase.Stopping? || s.phase.Waiting?) && s.phase.why == Revoking
    ensures s.revoking && s.active.Keys == Outstanding(s) && Rebalances(s.mailbox) == []
  {
    ReachableInv(env, s);
  }

  /** Some list of the consumers in a map. */
  lemma {:induction false} OrderOf(active: map<TP, Entry>) returns (order: seq<Entry>)
    ensures Lists(order, active)
    decreases |active|
  {
    if active == map[] {
      order := [];
    } else {
      var tp :| tp in active;
      var rest := active - {tp};
      assert active.Keys == rest.Keys + {tp};
      order := OrderOf(rest);
      order := order + [active[tp]];
      forall e | e in order ensures exists x :: x in active && active[x] == e {
        if e != active[tp] {
          var x :| x in rest && rest[x] == e;
          assert x in active && active[x] == e;
        }
      }
    }
  }

  /** Theorem. At most one live consumer exists per partition; it serves the partition's one
      queue of the current assignment, which has not been forwarded back. */
  lemma OneLiveConsumer(env: Env, s: Sys, a: nat, b: nat)
    requires LogsOk(env) && Reachable(env, s) && AliveIn(s.workers, a)
    ensures AliveIn(s.workers, b) && s.workers[b].tp == s.workers[a].tp ==> a == b
    ensures var w := s.workers[a];
      && w.tp in Outstanding(s) && w.queue in s.queues && !s.queues[w.queue].forwarded
      && forall id :: id in s.queues && s.queues[id].tp == w.tp ==> id == w.queue
  {
    ReachableInv(env, s);
    assert Delivery(env, s.done, s.workers, s.queues);
  }

  /** Theorem. While the client runs, the assignment is given up only when every consumer is
      dead and every queue of the map is forwarded back; in a revoke, every queue there is. */
  lemma UnassignComesLast(env: Env, s: Sys, a: Action)
    requires LogsOk(env) && Reachable(env, s) && Can(env, s, a) && EnvAllows(env, s, a)
    requires s.running && s.assignment.Some? && Apply(env, s, a).assignment.None?
    ensures a.StopNext? && forall pid :: pid in s.workers ==> !s.workers[pid].proc.Alive()
    ensures forall tp :: tp in s.active ==> s.active[tp].queue in s.queues && s.queues[s.active[tp].queue].forwarded
    ensures s.phase.why == Revoking ==> forall id :: id in s.queues ==> s.queues[id].forwarded
  {
    hide Inv, WorkerCan;
    ReachableInv(env, s);
    GivenUpByStopNext(env, s, a);
    NoneToStop(env, s);
  }

  lemma WorkerKeepsAssignment(env: Env, s: Sys, pid: nat, e: P.Event)
    requires pid in s.workers && P.Enabled(s.workers[pid].proc, e)
    ensures var s' := OnWorker(env, s, pid, e);
      && s'.assignment == s.assignment && s'.phase == s.phase && s'.running == s.running
      && s'.workers == s.workers[pid := s.workers[pid].(proc := P.Step(s.workers[pid].proc, e).0)]
  {
    hide P.Step, P.Enabled;
  }

  /** Every other step of the group or the client keeps the assignment; those that do not
      start or stop a consumer leave the consumers alone as well. */
  lemma KeepsAssignment(env: Env, s: Sys, a: Action)
    requires Can(env, s, a) && s.running && !a.WorkerEvent? && !a.AssignCallback? && !a.StopNext?
    ensures Apply(env, s, a).assignment == s.assignment
  {
    hide OnTake, OnStart, OnHearStopped, OnTimeout, Lists;
    match a
    case TakeMail(order) => TakeShape(s, order);
    case StartNext(cb) => StartWorkers(env, s, cb, 0);
    case HearStopped(i) => HearStoppedKeepsWorkers(s, i);
    case StopTimesOut => TimeoutWorkers(s, 0);
    case _ =>
  }

  lemma TakeShape(s: Sys, order: seq<Entry>)
    requires s.mailbox != []
    ensures OnTake(s, order) == s.(mailbox := s.mailbox[1..], phase := OnTake(s, order).phase)
  {
    hide PairsFor;
    match s.mailbox[0]
    case Revoke(tps) => if forall tp :: tp in tps ==> tp in s.active {} else {}
    case _ =>
  }

  lemma StartWorkers(env: Env, s: Sys, cb: P.Cb, pid: nat)
    requires s.phase.Starting?
    ensures OnStart(env, s, cb).assignment == s.assignment
    ensures AliveIn(OnStart(env, s, cb).workers, pid) && pid != s.nextId ==> AliveIn(s.workers, pid)
  {
  }

  lemma HearStoppedKeepsWorkers(s: Sys, i: nat)
    requires s.phase.Waiting? && i < |s.mailbox|
    ensures OnHearStopped(s, i).assignment == s.assignment && OnHearStopped(s, i).workers == s.workers
  {
  }

  lemma ForwardKeepsWorkers(s: Sys, queue: nat)
    ensures ForwardBack(s, queue) == s.(queues := ForwardBack(s, queue).queues)
  {
  }

  lemma TimeoutWorkers(s: Sys, pid: nat)
    requires s.phase.Waiting?
    ensures OnTimeout(s).assignment == s.assignment
    ensures AliveIn(OnTimeout(s).workers, pid) ==> AliveIn(s.workers, pid)
  {
    hide ForwardBack;
    var e := s.phase.entry;
    if AliveIn(s.workers, e.pid) {
      var t := SetProc(s, e.pid, P.Die(s.workers[e.pid].proc, false)).(mailbox := s.mailbox + [Exit(e.pid, false)]);
      ForwardKeepsWorkers(t, e.queue);
    } else {
      ForwardKeepsWorkers(s, e.queue);
    }
  }

  lemma StopNextWorkers(s: Sys, pid: nat)
    requires s.phase.Stopping?
    ensures AliveIn(OnStopNext(s).workers, pid) ==> AliveIn(s.workers, pid)
    ensures OnStopNext(s).assignment == s.assignment || s.phase.rest == []
  {
    hide P.Step, ForwardBack;
    if s.phase.rest != [] { ForwardKeepsWorkers(s, s.phase.rest[0].queue); }
  }

  lemma GivenUpByStopNext(env: Env, s: Sys, a: Action)
    requires Can(env, s, a) && s.running && s.assignment.Some? && Apply(env, s, a).assignment.None?
    ensures a.StopNext? && s.phase.rest == []
  {
    hide OnWorker, OnAssign, OnTake, OnStart, OnHearStopped, OnTimeout, OnStopNext, P.Step, P.Enabled, Lists;
    match a
    case WorkerEvent(pid, e) => WorkerKeepsAssignment(env, s, pid, e);
    case AssignCallback(parts, starts) => AssignAssigns(s, parts, starts);
    case StopNext => StopNextWorkers(s, 0);
    case _ => KeepsAssignment(env, s, a);
  }

  lemma AssignAssigns(s: Sys, parts: seq<Part>, starts: seq<nat>)
    requires |starts| == |parts|
    ensures OnAssign(s, parts, starts).workers == s.workers
    ensures s.running ==> OnAssign(s, parts, starts).assignment == Some(SetOf(TpsOf(parts)))
  {
    hide NewQueues;
  }

  lemma NoneToStop(env: Env, s: Sys)
    requires Inv(env, s) && s.phase.Stopping? && s.phase.rest == []
    ensures forall pid :: pid in s.workers ==> !s.workers[pid].proc.Alive()
    ensures forall tp :: tp in s.active ==> s.active[tp].queue in s.queues && s.queues[s.active[tp].queue].forwarded
    ensures s.phase.why == Revoking ==> forall id :: id in s.queues ==> s.queues[id].forwarded
  {
    hide Data, Ids, Procs, Requests;
    assert forall e :: !ToStop(s.phase, e);
    forall pid | pid in s.workers ensures !s.workers[pid].proc.Alive() {
      assert !AliveIn(s.workers, pid);
    }
    if s.phase.why == Revoking {
      forall id | id in s.queues ensures s.queues[id].forwarded {
        var tp := s.queues[id].tp;
        assert tp in s.active && EntryOk(s.workers, s.queues, tp, s.active[tp]);
      }
    }
  }

  /** Theorem. Once the client has been shut down no consumer is left and nothing is assigned. */
  lemma ShutdownLeavesNothing(env: Env, s: Sys)
    requires LogsOk(env) && Reachable(env, s) && (!s.running || s.phase.Down?)
    ensures s.assignment.None? && s.queues == map[] && forall pid :: pid in s.workers ==> !s.workers[pid].proc.Alive()
  {
    ReachableInv(env, s);
    forall pid | pid in s.workers ensures !s.workers[pid].proc.Alive() {
      assert !AliveIn(s.workers, pid);
    }
  }

  lemma {:induction false} DeadIsDead(p: P.Proc, e: P.Event)
    requires P.Enabled(p, e) && !p.Alive()
    ensures !P.Step(p, e).0.Alive()
  {
  }

  /** Theorem. A consumer once stopped or killed stays so: whoever is alive after a step was
      alive before it or has just been started under a new process id. */
  lemma DeadStaysDead(env: Env, s: Sys, a: Action, pid: nat)
    requires LogsOk(env) && Reachable(env, s) && Can(env, s, a) && EnvAllows(env, s, a)
    requires AliveIn(Apply(env, s, a).workers, pid)
    ensures AliveIn(s.workers, pid) || (a.StartNext? && pid == s.nextId && pid !in s.workers)
  {
    hide Inv, OnWorker, OnAssign, OnTake, OnStart, OnHearStopped, OnTimeout, OnStopNext, P.Step, P.Enabled, Lists,
      EnvAllows;
    ReachableInv(env, s);
    IdsOf(env, s);
    match a
    case WorkerEvent(x, e) =>
      WorkerKeepsAssignment(env, s, x, e);
      if !s.workers[x].proc.Alive() { DeadIsDead(s.workers[x].proc, e); }
    case AssignCallback(parts, starts) => AssignAssigns(s, parts, starts);
    case TakeMail(order) => TakeShape(s, order);
    case StartNext(cb) => StartWorkers(env, s, cb, pid);
    case HearStopped(i) => HearStoppedKeepsWorkers(s, i);
    case StopTimesOut => TimeoutWorkers(s, pid);
    case StopNext => StopNextWorkers(s, pid);
    case _ =>
  }

  lemma IdsOf(env: Env, s: Sys)
    requires Inv(env, s)
    ensures Ids(s.queues, s.workers, s.mailbox, s.nextId)
  {
  }

  /** Theorem. When the group hears the answer it waits for, the consumer it asked is dead: no
      answer to an earlier request can be mistaken for it. */
  lemma AnswerMeansDead(env: Env, s: Sys, i: nat)
    requires LogsOk(env) && Reachable(env, s) && Can(env, s, HearStopped(i))
    ensures s.phase.entry.pid in s.workers && !AliveIn(s.workers, s.phase.entry.pid)
  {
    ReachableInv(env, s);
    assert Stopped(s.phase.tag) in s.mailbox;
    assert ToStop(s.phase, s.phase.entry);
  }
}
