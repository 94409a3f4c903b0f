/**
  Why the group needs revokes to be whole. It clears its map after any revoke
  (lib/exrdkafka/consumer_group.ex:124), so one that names only some of the partitions, as
  cooperative rebalancing sends, leaves consumers running that the group no longer knows.
 */
module PartialRevoke {
  import opened Prelude
  import opened GroupProtocol
  import opened GroupInvariant
  import opened GroupSteps
  import opened GroupTheorems
  import P = ConsumerProcess

  // ----------------------------------------------- between handlers everybody listed is alive

  /** Outside stop_consumers the group has heard, or is about to hear, of every consumer in its
      map that has died. */
  ghost predicate Noticed(phase: Phase, active: map<TP, Entry>, workers: map<nat, Worker>, mailbox: seq<Mail>) {
    phase.Ready? || phase.Starting? ==>
      forall tp :: tp in active ==> AliveIn(workers, active[tp].pid) || Exit(active[tp].pid, false) in mailbox
  }

  ghost predicate AllNoticed(s: Sys) {
    Noticed(s.phase, s.active, s.workers, s.mailbox)
  }

  lemma TakeKeepsNoticed(s: Sys, order: seq<Entry>)
    requires AllNoticed(s) && s.phase.Ready? && s.mailbox != []
    ensures AllNoticed(OnTake(s, order))
  {
    TakeKeepsMap(s, order);
    hide OnTake;
    assert s.mailbox == [s.mailbox[0]] + s.mailbox[1..];
  }

  lemma TakeKeepsMap(s: Sys, order: seq<Entry>)
    requires s.phase.Ready? && s.mailbox != []
    ensures var t := OnTake(s, order);
      && t.active == s.active && t.workers == s.workers && t.mailbox == s.mailbox[1..]
      && ((t.phase.Ready? || t.phase.Starting?) && s.mailbox[0].Exit? ==> s.mailbox[0].normal || s.active == map[])
  {
    hide PairsFor;
    TakeShape(s, order);
    match s.mailbox[0]
    case Revoke(tps) => if forall tp :: tp in tps ==> tp in s.active {} else {}
    case _ =>
  }

  lemma StartKeepsNoticed(env: Env, s: Sys, cb: P.Cb)
    requires AllNoticed(s) && s.phase.Starting? && forall pid :: pid in s.workers ==> pid < s.nextId
    requires forall tp :: tp in s.active ==> s.active[tp].pid in s.workers
    ensures AllNoticed(OnStart(env, s, cb))
  {
  }

  lemma CrashIsReported(p: P.Proc, e: P.Event, pid: nat)
    requires P.Enabled(p, e) && p.Alive() && !P.Step(p, e).0.Alive()
    requires forall m :: m in p.mailbox ==> !P.IsStop(m)
    ensures MailFrom(pid, P.Step(p, e).1) == [Exit(pid, false)]
  {
    P.StopIsKeptOrAnswered(p, e);
    var outs := P.Step(p, e).1;
    hide P.Step, P.Enabled;
    assert outs == [P.Exit(false)] && outs[1..] == [];
    assert MailFrom(pid, outs) == MailOf(pid, outs[0]) + MailFrom(pid, outs[1..]) == [Exit(pid, false)] + [];
  }

  /** Outside stop_consumers no stop request is under way, so a consumer that ends crashes. */
  lemma DyingIsNoticed(env: Env, s: Sys, pid: nat, e: P.Event)
    requires Inv(env, s) && AliveIn(s.workers, pid) && P.Enabled(s.workers[pid].proc, e)
    requires !s.phase.Waiting? && !P.Step(s.workers[pid].proc, e).0.Alive()
    ensures MailFrom(pid, P.Step(s.workers[pid].proc, e).1) == [Exit(pid, false)]
  {
    hide P.Step, P.Enabled, MailFrom, Structure, Data;
    assert Requests(s.phase, s.workers, s.mailbox, s.nextId);
    CrashIsReported(s.workers[pid].proc, e, pid);
  }

  lemma NoticedAfter(phase: Phase, active: map<TP, Entry>, workers: map<nat, Worker>, mailbox: seq<Mail>,
                     pid: nat, p: P.Proc, more: seq<Mail>)
    requires Noticed(phase, active, workers, mailbox) && pid in workers
    requires (phase.Ready? || phase.Starting?) && workers[pid].proc.Alive() && !p.Alive() ==> more == [Exit(pid, false)]
    ensures Noticed(phase, active, workers[pid := workers[pid].(proc := p)], mailbox + more)
  {
  }

  lemma WorkerMails(env: Env, s: Sys, pid: nat, e: P.Event)
    requires pid in s.workers && P.Enabled(s.workers[pid].proc, e)
    ensures OnWorker(env, s, pid, e).active == s.active
    ensures OnWorker(env, s, pid, e).mailbox == s.mailbox + MailFrom(pid, P.Step(s.workers[pid].proc, e).1)
  {
    hide P.Step, P.Enabled, MailFrom;
  }

  lemma WorkerKeepsNoticed(env: Env, s: Sys, pid: nat, e: P.Event)
    requires Inv(env, s) && AllNoticed(s) && pid in s.workers && P.Enabled(s.workers[pid].proc, e)
    ensures AllNoticed(OnWorker(env, s, pid, e))
  {
    hide Inv, P.Step, P.Enabled, OnWorker, Noticed, MailFrom;
    WorkerKeepsAssignment(env, s, pid, e);
    WorkerMails(env, s, pid, e);
    var (p, outs) := P.Step(s.workers[pid].proc, e);
    if !s.phase.Waiting? && AliveIn(s.workers, pid) && !p.Alive() { DyingIsNoticed(env, s, pid, e); }
    NoticedAfter(s.phase, s.active, s.workers, s.mailbox, pid, p, MailFrom(pid, outs));
  }

  lemma StopKeepsNoticed(s: Sys, a: Action)
    ensures s.phase.Stopping? ==> AllNoticed(OnStopNext(s))
    ensures s.phase.Waiting? ==> AllNoticed(OnTimeout(s))
    ensures s.phase.Waiting? && a.HearStopped? && a.at < |s.mailbox| ==> AllNoticed(OnHearStopped(s, a.at))
  {
    hide P.Step, P.Die;
  }

  lemma MapFacts(env: Env, s: Sys)
    requires Inv(env, s)
    ensures forall pid :: pid in s.workers ==> pid < s.nextId
    ensures forall tp :: tp in s.active ==> s.active[tp].pid in s.workers && s.workers[s.active[tp].pid].tp == tp
    ensures s.phase.Down? ==> s.active == map[]
  {
  }

  lemma AssignKeepsNoticed(s: Sys, parts: seq<Part>, starts: seq<nat>)
    requires AllNoticed(s) && |starts| == |parts|
    ensures AllNoticed(OnAssign(s, parts, starts))
  {
    hide NewQueues;
  }

  lemma StepKeepsNoticed(env: Env, s: Sys, a: Action)
    requires Inv(env, s) && AllNoticed(s) && Can(env, s, a)
    ensures AllNoticed(Apply(env, s, a))
  {
    MapFacts(env, s);
    hide Inv, Lists, OnAssign, OnTake, OnStart, OnStopNext, OnHearStopped, OnTimeout, OnWorker, P.Step, P.Enabled;
    match a
    case AssignCallback(parts, starts) => AssignKeepsNoticed(s, parts, starts);
    case TakeMail(order) => TakeKeepsNoticed(s, order);
    case StartNext(cb) => StartKeepsNoticed(env, s, cb);
    case StopNext => StopKeepsNoticed(s, a);
    case HearStopped(_) => StopKeepsNoticed(s, a);
    case StopTimesOut => StopKeepsNoticed(s, a);
    case WorkerEvent(pid, e) => WorkerKeepsNoticed(env, s, pid, e);
    case _ =>
  }

  lemma {:induction false} RunKeepsNoticed(env: Env, s: Sys, actions: seq<Action>)
    requires LogsOk(env) && Inv(env, s) && AllNoticed(s) && IsRun(env, s, actions)
    ensures AllNoticed(After(env, s, actions))
    decreases |actions|
  {
    hide Inv, AllNoticed, Apply, Can, EnvAllows;
    if actions == [] {
    } else {
      StepKeepsNoticed(env, s, actions[0]);
      StepKeepsInv(env, s, actions[0]);
      RunKeepsNoticed(env, Apply(env, s, actions[0]), actions[1..]);
    }
  }

  /** A reachable state between handlers with no mail waiting. */
  ghost predicate Quiet(env: Env, s: Sys) {
    LogsOk(env) && Reachable(env, s) && s.phase.Ready? && s.mailbox == []
  }

  /** Theorem. In it the map is the assignment, and every consumer in it is alive. */
  lemma QuietIsComplete(env: Env, s: Sys)
    requires Quiet(env, s)
    ensures s.running && !s.revoking && s.active.Keys == Outstanding(s)
    ensures forall tp :: tp in s.active ==> AliveIn(s.workers, s.active[tp].pid)
  {
    ReachableInv(env, s);
    var actions :| IsRun(env, Init(), actions) && s == After(env, Init(), actions);
    InitInv(env);
    RunKeepsNoticed(env, Init(), actions);
    hide Structure, Data;
    assert AllNoticed(s);
  }

  // --------------------------------------------------------------------------- what follows

  ghost predicate Leads(env: Env, s: Sys, t: Sys) {
    exists actions :: IsRun(env, s, actions) && t == After(env, s, actions)
  }

  ghost predicate TwoForOne(s: Sys) {
    exists a, b :: a != b && AliveIn(s.workers, a) && AliveIn(s.workers, b) && s.workers[a].tp == s.workers[b].tp
  }

  lemma {:induction false} OneMore(env: Env, s: Sys, actions: seq<Action>, a: Action)
    requires IsRun(env, s, actions) && Can(env, After(env, s, actions), a) && EnvAllows(env, After(env, s, actions), a)
    ensures IsRun(env, s, actions + [a]) && After(env, s, actions + [a]) == Apply(env, After(env, s, actions), a)
    decreases |actions|
  {
    hide Can, Apply, EnvAllows;
    if actions == [] {
      assert [] + [a] == [a] && [a][1..] == [];
    } else {
      OneMore(env, Apply(env, s, actions[0]), actions[1..], a);
      assert (actions + [a])[1..] == actions[1..] + [a];
    }
  }

  lemma Then(env: Env, s: Sys, t: Sys, a: Action)
    requires Leads(env, s, t) && Can(env, t, a) && EnvAllows(env, t, a)
    ensures Leads(env, s, Apply(env, t, a))
  {
    hide Can, Apply, EnvAllows;
    var actions :| IsRun(env, s, actions) && t == After(env, s, actions);
    OneMore(env, s, actions, a);
  }

  lemma Here(env: Env, s: Sys)
    ensures Leads(env, s, s)
  {
    assert IsRun(env, s, []) && After(env, s, []) == s;
  }

  /** The consumer lives on, and all the group has waiting is news of deaths. */
  ghost predicate LivesOn(s: Sys, pid: nat, tp: TP) {
    && AliveIn(s.workers, pid) && s.workers[pid].tp == tp && pid < s.nextId && s.running
    && forall m :: m in s.mailbox ==> m.Exit?
  }

  /** The revoke is over. */
  ghost predicate Over(s: Sys) {
    s.phase.Ready? && s.assignment.None? && !s.revoking && s.active == map[]
  }

  lemma AskAndKill(env: Env, s: Sys, pid: nat, tp: TP)
    requires s.phase.Stopping? && s.phase.why == Revoking && s.phase.rest != [] && LivesOn(s, pid, tp)
    requires s.phase.rest[0].pid != pid && AliveIn(s.workers, s.phase.rest[0].pid)
    ensures var t := OnStopNext(s);
      t.phase.Waiting? && var u := OnTimeout(t); u.phase == Stopping(s.phase.rest[1..], Revoking) && LivesOn(u, pid, tp)
  {
    hide P.Step, P.Die;
  }

  lemma PassTheDead(s: Sys, pid: nat, tp: TP)
    requires s.phase.Stopping? && s.phase.why == Revoking && s.phase.rest != [] && LivesOn(s, pid, tp)
    requires !AliveIn(s.workers, s.phase.rest[0].pid)
    ensures var t := OnStopNext(s); t.phase == Stopping(s.phase.rest[1..], Revoking) && LivesOn(t, pid, tp)
  {
  }

  /** stop_consumers for others than this consumer. */
  lemma {:induction false} StopOthers(env: Env, s0: Sys, s: Sys, pid: nat, tp: TP) returns (t: Sys)
    requires Leads(env, s0, s) && s.phase.Stopping? && s.phase.why == Revoking && LivesOn(s, pid, tp)
    requires forall e :: e in s.phase.rest ==> e.pid != pid
    ensures Leads(env, s0, t) && LivesOn(t, pid, tp) && Over(t)
    decreases |s.phase.rest|
  {
    hide Leads;
    Then(env, s0, s, StopNext);
    var u := OnStopNext(s);
    if s.phase.rest == [] {
      t := u;
    } else if AliveIn(s.workers, s.phase.rest[0].pid) {
      AskAndKill(env, s, pid, tp);
      hide LivesOn, OnStopNext, OnTimeout;
      Then(env, s0, u, StopTimesOut);
      t := StopOthers(env, s0, OnTimeout(u), pid, tp);
    } else {
      PassTheDead(s, pid, tp);
      hide LivesOn, OnStopNext;
      t := StopOthers(env, s0, u, pid, tp);
    }
  }

  /** The revoke, up to stop_consumers. */
  lemma BeginRevoke(env: Env, s: Sys, tps: seq<TP>, pid: nat) returns (t: Sys)
    requires Quiet(env, s) && Distinct(tps) && SetOf(tps) <= Outstanding(s)
    requires AliveIn(s.workers, pid) && s.workers[pid].tp !in tps
    ensures Leads(env, OnRevoke(s, tps), t) && t.phase.Stopping? && t.phase.why == Revoking
    ensures LivesOn(t, pid, s.workers[pid].tp) && forall e :: e in t.phase.rest ==> e.pid != pid
  {
    hide Inv, Reachable, Leads, Lists, PairsFor, Distinct, SetOf;
    QuietIsComplete(env, s);
    ReachableInv(env, s);
    MapFacts(env, s);
    AllListed(s, tps);
    PairsSpare(s, tps, pid);
    t := TakeRevoke(env, s, tps);
  }

  lemma AllListed(s: Sys, tps: seq<TP>)
    requires SetOf(tps) <= s.active.Keys
    ensures forall tp :: tp in tps ==> tp in s.active
  {
    assert forall tp :: tp in tps ==> tp in SetOf(tps);
  }

  lemma PairsSpare(s: Sys, tps: seq<TP>, pid: nat)
    requires forall tp :: tp in tps ==> tp in s.active
    requires forall tp :: tp in s.active ==> s.active[tp].pid in s.workers && s.workers[s.active[tp].pid].tp == tp
    requires pid in s.workers && s.workers[pid].tp !in tps
    ensures forall e :: e in PairsFor(s.active, tps) ==> e.pid != pid
  {
  }

  lemma TakeRevoke(env: Env, s: Sys, tps: seq<TP>) returns (t: Sys)
    requires s.phase.Ready? && s.mailbox == [] && s.running && forall tp :: tp in tps ==> tp in s.active
    ensures Leads(env, OnRevoke(s, tps), t)
    ensures t == s.(revoking := true, mailbox := [], phase := Stopping(PairsFor(s.active, tps), Revoking))
  {
    hide Leads;
    var order := OrderOf(s.active);
    var u := s.(revoking := true, mailbox := [Revoke(tps)]);
    assert OnRevoke(s, tps) == u;
    Here(env, u);
    Then(env, u, u, TakeMail(order));
    hide Lists, PairsFor;
    t := OnTake(u, order);
  }

  /** The group takes its mail, down to the message that is last. */
  lemma {:induction false} TakeDeaths(env: Env, s0: Sys, s: Sys, last: Mail) returns (t: Sys)
    requires Leads(env, s0, s) && s.phase.Ready? && s.active == map[] && s.mailbox != []
    requires s.mailbox[|s.mailbox| - 1] == last && forall i :: 0 <= i < |s.mailbox| - 1 ==> s.mailbox[i].Exit?
    ensures Leads(env, s0, t) && t == s.(mailbox := [last])
    decreases |s.mailbox|
  {
    hide Leads;
    if |s.mailbox| == 1 {
      assert s.mailbox == [last];
      t := s;
    } else {
      assert Lists([], s.active);
      Then(env, s0, s, TakeMail([]));
      var u := s.(mailbox := s.mailbox[1..]);
      assert OnTake(s, []) == u;
      t := TakeDeaths(env, s0, u, last);
    }
  }

  /** The partition is assigned again and gets another consumer. */
  lemma StartAnother(env: Env, s0: Sys, s: Sys, pid: nat, tp: TP) returns (t: Sys)
    requires Leads(env, s0, s) && LivesOn(s, pid, tp) && Over(s)
    ensures Leads(env, s0, t) && TwoForOne(t)
  {
    hide Leads;
    var parts := [Part(tp, s.nextId)];
    assert TpsOf(parts) == [tp];
    Then(env, s0, s, AssignCallback(parts, [0]));
    var u := OnAssign(s, parts, [0]);
    var v := TakeDeaths(env, s0, u, Assign(parts));
    Then(env, s0, v, TakeMail([]));
    var w := v.(mailbox := [], phase := Starting(parts));
    assert OnTake(v, []) == w;
    TwoAfterStart(env, s0, w, pid, tp);
    t := OnStart(env, w, w.workers[pid].proc.cb);
  }

  lemma TwoAfterStart(env: Env, s0: Sys, s: Sys, pid: nat, tp: TP)
    requires Leads(env, s0, s) && AliveIn(s.workers, pid) && s.workers[pid].tp == tp && pid < s.nextId
    requires s.phase.Starting? && s.phase.todo != [] && s.phase.todo[0].tp == tp
    ensures var t := OnStart(env, s, s.workers[pid].proc.cb); Leads(env, s0, t) && TwoForOne(t)
  {
    hide Leads;
    var cb := s.workers[pid].proc.cb;
    Then(env, s0, s, StartNext(cb));
    var t := OnStart(env, s, cb);
    assert AliveIn(t.workers, pid) && AliveIn(t.workers, s.nextId);
  }

  lemma LeftOutMeansTwo(env: Env, s: Sys, tps: seq<TP>, pid: nat) returns (t: Sys)
    requires Quiet(env, s) && Distinct(tps) && SetOf(tps) <= Outstanding(s)
    requires AliveIn(s.workers, pid) && s.workers[pid].tp !in tps
    ensures Leads(env, OnRevoke(s, tps), t) && TwoForOne(t)
  {
    hide Leads, Quiet;
    var tp := s.workers[pid].tp;
    t := BeginRevoke(env, s, tps, pid);
    t := StopOthers(env, OnRevoke(s, tps), t, pid, tp);
    t := StartAnother(env, OnRevoke(s, tps), t, pid, tp);
  }

  /** Theorem. Let some partitions be revoked while the group is between handlers with no mail
      waiting, and the environment keep to the rules from then on. Two live consumers of one
      partition can come about if and only if the revoke was not whole. */
  lemma WhenRevokeBreaks(env: Env, s: Sys, tps: seq<TP>)
    requires Quiet(env, s) && Distinct(tps) && SetOf(tps) <= Outstanding(s)
    ensures (exists t :: Leads(env, OnRevoke(s, tps), t) && TwoForOne(t)) <==> SetOf(tps) != Outstanding(s)
  {
    QuietIsComplete(env, s);
    if SetOf(tps) == Outstanding(s) {
      WholeRevokeIsSafe(env, s, tps);
    } else {
      var tp :| tp in Outstanding(s) && tp !in tps;
      ReachableInv(env, s);
      MapFacts(env, s);
      hide Leads, TwoForOne, Inv, Quiet;
      assert tp in s.active.Keys;
      var t := LeftOutMeansTwo(env, s, tps, s.active[tp].pid);
    }
  }

  lemma WholeRevokeIsSafe(env: Env, s: Sys, tps: seq<TP>)
    requires Quiet(env, s) && Distinct(tps) && SetOf(tps) == Outstanding(s) && s.running && !s.revoking
    ensures !exists t :: Leads(env, OnRevoke(s, tps), t) && TwoForOne(t)
  {
    ReachableInv(env, s);
    var a := RevokeCallback(tps);
    hide Inv, TwoForOne;
    StepKeepsInv(env, s, a);
    forall t | Leads(env, OnRevoke(s, tps), t) ensures !TwoForOne(t) {
      var actions :| IsRun(env, OnRevoke(s, tps), actions) && t == After(env, OnRevoke(s, tps), actions);
      RunKeepsInv(env, OnRevoke(s, tps), actions);
      InvMeansOne(env, t);
    }
  }

  lemma InvMeansOne(env: Env, s: Sys)
    requires Inv(env, s)
    ensures !TwoForOne(s)
  {
  }

  // --------------------------------------------------------------------------- an instance

  function NewWorker(env: Env, tp: TP, queue: nat, cb: P.Cb): Worker {
    Worker(tp, queue, P.Init(env.mode(tp), cb))
  }

  /** Two partitions are assigned and the group has been told. */
  function Told(a: TP, b: TP): Sys {
    Init().(assignment := Some({a, b}), queues := map[1 := Queue(a, [], 0, false), 2 := Queue(b, [], 0, false)],
            mailbox := [Assign([Part(a, 1), Part(b, 2)])], nextId := 3)
  }

  /** Both have their consumer. */
  function Running(env: Env, a: TP, b: TP, cb: P.Cb): Sys {
    Told(a, b).(mailbox := [], nextId := 5,
                workers := map[3 := NewWorker(env, a, 1, cb), 4 := NewWorker(env, b, 2, cb)],
                active := map[a := Entry(3, 1), b := Entry(4, 2)])
  }

  lemma AssignBoth(env: Env, a: TP, b: TP)
    requires a != b
    ensures Leads(env, Init(), Told(a, b))
  {
    var parts := [Part(a, 1), Part(b, 2)];
    Here(env, Init());
    assert TpsOf(parts) == [a, b] && SetOf([a, b]) == {a, b};
    assert parts[..1] == [Part(a, 1)] && [0, 0][..1] == [0];
    var queues := NewQueues(parts, [0, 0], 1);
    assert queues == map[1 := Queue(a, [], 0, false), 2 := Queue(b, [], 0, false)];
    hide NewQueues, Leads;
    Then(env, Init(), Init(), AssignCallback(parts, [0, 0]));
    assert OnAssign(Init(), parts, [0, 0]) == Told(a, b);
  }

  lemma StartBoth(env: Env, a: TP, b: TP, cb: P.Cb)
    requires a != b
    ensures Leads(env, Init(), Running(env, a, b, cb))
  {
    hide Leads;
    AssignBoth(env, a, b);
    var s := Told(a, b);
    Then(env, Init(), s, TakeMail([]));
    s := s.(mailbox := [], phase := Starting([Part(a, 1), Part(b, 2)]));
    assert OnTake(Told(a, b), []) == s;
    var t := s.(workers := map[3 := NewWorker(env, a, 1, cb)], active := map[a := Entry(3, 1)],
                phase := Starting([Part(b, 2)]), nextId := 4);
    Then(env, Init(), s, StartNext(cb));
    assert OnStart(env, s, cb) == t;
    var u := Running(env, a, b, cb).(phase := Starting([]));
    Then(env, Init(), t, StartNext(cb));
    assert OnStart(env, t, cb) == u;
    Then(env, Init(), u, StartNext(cb));
  }

  /** Theorem. So with revokes that name only part of the assignment, two live consumers of one
      partition can be reached, whatever the partitions, their logs and their callbacks. */
  lemma TwoConsumersForOnePartition(env: Env, a: TP, b: TP, cb: P.Cb) returns (s: Sys, t: Sys)
    requires LogsOk(env) && a != b
    ensures Quiet(env, s) && SetOf([a]) < Outstanding(s)
    ensures Leads(env, OnRevoke(s, [a]), t) && TwoForOne(t)
  {
    s := Running(env, a, b, cb);
    StartBoth(env, a, b, cb);
    assert Reachable(env, s);
    assert SetOf([a]) == {a} && b in Outstanding(s);
    WhenRevokeBreaks(env, s, [a]);
    t :| Leads(env, OnRevoke(s, [a]), t) && TwoForOne(t);
  }
}
