/**
  What goes through the group's mailbox: the request the group waits on has really been sent, and
  every death, every assignment and every revoke is told to the group once and is not lost.
 */
module GroupMail {
  import opened Consumer
  import opened GroupProtocol
  import opened GroupInvariant
  import opened GroupSteps
  import opened GroupTheorems
  import P = ConsumerProcess

  // -------------------------------------------------------------------------- the mailbox

  lemma ReportOfStop(pid: nat, from: nat, tag: nat)
    ensures MailFrom(pid, [P.SendStopped(from, tag), P.Exit(true)]) == [Stopped(tag), Exit(pid, true)]
  {
    var outs := [P.SendStopped(from, tag), P.Exit(true)];
    assert outs[1..] == [P.Exit(true)] && outs[1..][1..] == [];
    assert MailFrom(pid, outs[1..]) == [Exit(pid, true)] + MailFrom(pid, outs[1..][1..]);
  }

  lemma ReportOfExit(pid: nat, normal: bool)
    ensures MailFrom(pid, [P.Exit(normal)]) == [Exit(pid, normal)]
  {
    assert [P.Exit(normal)][1..] == [];
  }

  lemma {:induction false} NothingToReport(pid: nat, outs: seq<P.Out>)
    requires forall o :: o in outs ==> !o.SendStopped? && !o.Exit?
    ensures MailFrom(pid, outs) == []
  {
    if outs == [] {
    } else {
      NothingToReport(pid, outs[1..]);
    }
  }

  /** What a live consumer's step reports: nothing while it lives, and its end once. */
  lemma WorkerReports(pid: nat, p: P.Proc, e: P.Event)
    requires P.Enabled(p, e) && p.Alive()
    ensures var (p', outs) := P.Step(p, e);
      && (p'.Alive() ==> MailFrom(pid, outs) == [])
      && (p'.phase == P.Gone(false) ==> MailFrom(pid, outs) == [Exit(pid, false)])
      && (p'.phase == P.Gone(true) ==>
            exists m :: m in p.mailbox && P.IsStop(m) &&
                        MailFrom(pid, outs) == [Stopped(m.triple.tag), Exit(pid, true)])
  {
    hide P.Step, P.Enabled, MailFrom;
    P.StopIsKeptOrAnswered(p, e);
    var (p', outs) := P.Step(p, e);
    if p'.Alive() {
      NothingToReport(pid, outs);
    } else if p'.phase.normal {
      var m :| m in p.mailbox && P.IsStop(m) && outs == [P.SendStopped(m.triple.from, m.triple.tag), P.Exit(true)];
      ReportOfStop(pid, m.triple.from, m.triple.tag);
    } else {
      ReportOfExit(pid, false);
    }
  }

  // -------------------------------------------------------- the request that is waited on

  /** The consumer the group waits for has the request, or has ended and said so. */
  ghost predicate Asking(phase: Phase, workers: map<nat, Worker>, mailbox: seq<Mail>) {
    phase.Waiting? ==>
      var pid := phase.entry.pid;
      && pid in workers
      && var p := workers[pid].proc;
      if p.Alive() then P.Request(StopRequest(GROUP, phase.tag)) in p.mailbox
      else Exit(pid, p.phase.normal) in mailbox && (p.phase.normal ==> Stopped(phase.tag) in mailbox)
  }

  lemma WorkerStepAsks(p: P.Proc, e: P.Event, ask: P.Mail, pid: nat)
    requires P.Enabled(p, e) && p.Alive() && P.IsStop(ask) && ask in p.mailbox
    requires forall m :: m in p.mailbox && P.IsStop(m) ==> m.triple.tag == ask.triple.tag
    ensures var (p', outs) := P.Step(p, e);
      if p'.Alive() then ask in p'.mailbox
      else
        && Exit(pid, p'.phase.normal) in MailFrom(pid, outs)
        && (p'.phase.normal ==> Stopped(ask.triple.tag) in MailFrom(pid, outs))
  {
    hide P.Step, P.Enabled, MailFrom;
    P.StopIsKeptOrAnswered(p, e);
    WorkerReports(pid, p, e);
  }

  lemma WorkerKeepsAsking(env: Env, s: Sys, pid: nat, e: P.Event)
    requires OnlyTheAsked(s) && pid in s.workers && WorkerCan(env, s, s.workers[pid], e)
    requires Asking(s.phase, s.workers, s.mailbox)
    ensures var t := OnWorker(env, s, pid, e); Asking(t.phase, t.workers, t.mailbox)
  {
    if !AliveIn(s.workers, pid) {
      hide OnWorker, P.Step, P.Enabled;
      DeadStepIsNothing(env, s, pid, e);
    } else {
      WorkerKeepsAssignment(env, s, pid, e);
      WorkerTells(env, s, pid, e);
      hide OnWorker, P.Step, P.Enabled, WorkerCan, P.IsStop;
      if s.phase.Waiting? && pid == s.phase.entry.pid {
        AskedStepAsks(s, pid, e);
      }
    }
  }

  lemma AskedStepAsks(s: Sys, pid: nat, e: P.Event)
    requires OnlyTheAsked(s) && Asking(s.phase, s.workers, s.mailbox)
    requires AliveIn(s.workers, pid) && P.Enabled(s.workers[pid].proc, e)
    requires s.phase.Waiting? && pid == s.phase.entry.pid
    ensures var (p, outs) := P.Step(s.workers[pid].proc, e);
      Asking(s.phase, s.workers[pid := s.workers[pid].(proc := p)], s.mailbox + MailFrom(pid, outs))
  {
    hide P.Step, P.Enabled, MailFrom;
    WorkerStepAsks(s.workers[pid].proc, e, P.Request(StopRequest(GROUP, s.phase.tag)), pid);
  }

  /** The stop requests waiting with consumers all carry the tag the group waits for. */
  ghost predicate OnlyTheAsked(s: Sys) {
    forall pid, m :: AliveIn(s.workers, pid) && m in s.workers[pid].proc.mailbox && P.IsStop(m) ==>
      s.phase.Waiting? && m.triple.tag == s.phase.tag
  }

  lemma RequestsOf(env: Env, s: Sys)
    requires Inv(env, s)
    ensures Requests(s.phase, s.workers, s.mailbox, s.nextId)
  {
  }

  lemma RequestsAreTagged(s: Sys)
    requires Requests(s.phase, s.workers, s.mailbox, s.nextId)
    ensures OnlyTheAsked(s)
  {
  }

  lemma WorkerTells(env: Env, s: Sys, pid: nat, e: P.Event)
    requires pid in s.workers && P.Enabled(s.workers[pid].proc, e)
    ensures OnWorker(env, s, pid, e).mailbox == s.mailbox + MailFrom(pid, P.Step(s.workers[pid].proc, e).1)
  {
    hide P.Step, P.Enabled, MailFrom;
  }

  lemma StopNextAsks(s: Sys)
    requires s.phase.Stopping?
    ensures var t := OnStopNext(s); Asking(t.phase, t.workers, t.mailbox)
  {
    if s.phase.rest != [] && AliveIn(s.workers, s.phase.rest[0].pid) {
      var (p, ask) := (s.workers[s.phase.rest[0].pid].proc, P.Request(StopRequest(GROUP, s.nextId)));
      assert P.Step(p, StopMail(s.nextId)).0.mailbox == p.mailbox + [ask] && ask in p.mailbox + [ask];
    }
    hide P.Step, ForwardBack;
  }

  /** What is told only adds to the mailbox. */
  lemma MoreMailAsks(phase: Phase, workers: map<nat, Worker>, mailbox: seq<Mail>, more: seq<Mail>)
    requires Asking(phase, workers, mailbox)
    ensures Asking(phase, workers, mailbox + more)
  {
  }

  lemma AssignTells(s: Sys, parts: seq<Part>, starts: seq<nat>)
    requires |starts| == |parts|
    ensures var t := OnAssign(s, parts, starts);
      && t.phase == s.phase && t.workers == s.workers
      && t.mailbox == s.mailbox + if s.running then [Assign(parts)] else []
  {
    hide NewQueues;
  }

  lemma StepKeepsAsking(env: Env, s: Sys, a: Action)
    requires Inv(env, s) && Can(env, s, a) && Asking(s.phase, s.workers, s.mailbox)
    ensures var t := Apply(env, s, a); Asking(t.phase, t.workers, t.mailbox)
  {
    hide Inv, OnWorker, OnAssign, OnTake, OnStart, OnStopNext, Lists, WorkerCan, P.Step, P.Die, Asking,
      Requests, OnlyTheAsked;
    match a
    case WorkerEvent(pid, e) =>
      RequestsOf(env, s);
      RequestsAreTagged(s);
      WorkerKeepsAsking(env, s, pid, e);
    case AssignCallback(parts, starts) =>
      AssignTells(s, parts, starts);
      MoreMailAsks(s.phase, s.workers, s.mailbox, if s.running then [Assign(parts)] else []);
    case RevokeCallback(tps) => MoreMailAsks(s.phase, s.workers, s.mailbox, [Revoke(tps)]);
    case StopNext => StopNextAsks(s);
    case Fetch(_, _) =>
    case Drain(_) =>
    case _ => NotWaitingAfter(env, s, a);
  }

  /** The group itself leaves the wait, or was not in it. */
  lemma NotWaitingAfter(env: Env, s: Sys, a: Action)
    requires Can(env, s, a)
    requires a.TakeMail? || a.StartNext? || a.HearStopped? || a.StopTimesOut? || a.Shutdown? || a.Restart?
    ensures var t := Apply(env, s, a); Asking(t.phase, t.workers, t.mailbox)
  {
    hide P.Die, OnTake, Lists;
    match a
    case TakeMail(order) => TakeIsNoWait(s, order);
    case _ =>
  }

  lemma TakeIsNoWait(s: Sys, order: seq<Entry>)
    requires s.phase.Ready? && s.mailbox != []
    ensures !OnTake(s, order).phase.Waiting?
  {
    hide PairsFor;
    match s.mailbox[0]
    case Revoke(tps) => if forall tp :: tp in tps ==> tp in s.active {} else {}
    case _ =>
  }

  lemma {:induction false} RunKeepsAsking(env: Env, s: Sys, actions: seq<Action>)
    requires LogsOk(env) && Inv(env, s) && IsRun(env, s, actions) && Asking(s.phase, s.workers, s.mailbox)
    ensures var t := After(env, s, actions); Asking(t.phase, t.workers, t.mailbox)
    decreases |actions|
  {
    hide Inv, Can, Apply, EnvAllows, Asking;
    if actions == [] {
    } else {
      StepKeepsInv(env, s, actions[0]);
      StepKeepsAsking(env, s, actions[0]);
      RunKeepsAsking(env, Apply(env, s, actions[0]), actions[1..]);
    }
  }

  /** Theorem. While the group waits for an answer, the consumer it asked has the stop request in
      its mailbox or has ended and said so: with the answer waited for if it ended normally. */
  lemma StopRequestIsThere(env: Env, s: Sys)
    requires LogsOk(env) && Reachable(env, s) && s.phase.Waiting?
    ensures s.phase.entry.pid in s.workers
    ensures var (pid, p) := (s.phase.entry.pid, s.workers[s.phase.entry.pid].proc);
      && (p.Alive() ==> P.Request(StopRequest(GROUP, s.phase.tag)) in p.mailbox)
      && (p.phase == P.Gone(true) ==> Stopped(s.phase.tag) in s.mailbox && Exit(pid, true) in s.mailbox)
      && (p.phase == P.Gone(false) ==> Exit(pid, false) in s.mailbox)
  {
    var actions :| IsRun(env, Init(), actions) && s == After(env, Init(), actions);
    InitInv(env);
    RunKeepsAsking(env, Init(), actions);
    hide Inv, IsRun, After;
  }

  // ------------------------------------------------------------------ what the group is told

  /** What a step adds to the mailbox when it takes nothing away. */
  function News(s: Sys, t: Sys): seq<Mail> {
    if |s.mailbox| <= |t.mailbox| then t.mailbox[|s.mailbox|..] else []
  }

  /** The end of a consumer is told as it happens, and with it the answer if it was asked to stop. */
  ghost predicate DeathsAreTold(s: Sys, t: Sys, news: seq<Mail>) {
    && (forall pid :: AliveIn(s.workers, pid) && pid in t.workers && !t.workers[pid].proc.Alive() ==>
          Exit(pid, t.workers[pid].proc.phase.normal) in news)
    && (forall pid, normal :: Exit(pid, normal) in news ==>
          AliveIn(s.workers, pid) && pid in t.workers && t.workers[pid].proc.phase == P.Gone(normal))
    && (forall tag :: Stopped(tag) in news ==> exists pid :: AnswersNow(s, t, pid, tag))
  }

  ghost predicate AnswersNow(s: Sys, t: Sys, pid: nat, tag: nat) {
    && AliveIn(s.workers, pid) && pid in t.workers && t.workers[pid].proc.phase == P.Gone(true)
    && exists m :: m in s.workers[pid].proc.mailbox && P.IsStop(m) && m.triple.tag == tag
  }

  lemma WorkerTellsDeaths(env: Env, s: Sys, pid: nat, e: P.Event)
    requires pid in s.workers && WorkerCan(env, s, s.workers[pid], e)
    ensures var t := OnWorker(env, s, pid, e);
      s.mailbox <= t.mailbox && DeathsAreTold(s, t, News(s, t)) && forall m :: m in News(s, t) ==> m.Exit? || m.Stopped?
  {
    hide OnWorker, P.Step, P.Enabled, MailFrom;
    if !AliveIn(s.workers, pid) {
      DeadStepIsNothing(env, s, pid, e);
    } else {
      WorkerKeepsAssignment(env, s, pid, e);
      WorkerTells(env, s, pid, e);
      WorkerReports(pid, s.workers[pid].proc, e);
      var t := OnWorker(env, s, pid, e);
      var told := MailFrom(pid, P.Step(s.workers[pid].proc, e).1);
      assert News(s, t) == told;
      forall tag | Stopped(tag) in told ensures AnswersNow(s, t, pid, tag) {
      }
    }
  }

  lemma TimeoutTells(s: Sys)
    requires s.phase.Waiting?
    ensures var t := OnTimeout(s);
      s.mailbox <= t.mailbox && DeathsAreTold(s, t, News(s, t)) && forall m :: m in News(s, t) ==> m.Exit?
  {
    var (e, t) := (s.phase.entry, OnTimeout(s));
    if AliveIn(s.workers, e.pid) {
      assert t.mailbox == s.mailbox + [Exit(e.pid, false)] && News(s, t) == [Exit(e.pid, false)];
    } else {
      assert t.workers == s.workers && News(s, t) == [];
    }
  }

  /** Nobody dies where no consumer takes a step. */
  lemma NobodyDies(s: Sys, t: Sys)
    requires forall pid :: pid in s.workers && pid in t.workers && s.workers[pid].proc.Alive() ==>
               t.workers[pid].proc.Alive()
    requires forall m :: m in News(s, t) ==> m.Assign? || m.Revoke?
    ensures DeathsAreTold(s, t, News(s, t))
  {
  }

  lemma StopNextTells(s: Sys)
    requires s.phase.Stopping?
    ensures var t := OnStopNext(s);
      DeathsAreTold(s, t, News(s, t)) && News(s, t) == [] && (s.mailbox <= t.mailbox || t.phase.Down?)
  {
    hide P.Step, ForwardBack;
    var t := OnStopNext(s);
    if s.phase.rest != [] {
      var e := s.phase.rest[0];
      if AliveIn(s.workers, e.pid) {
        StaysAlive(s.workers[e.pid].proc, s.nextId);
      }
      ForwardKeepsWorkers(s, e.queue);
      assert t.mailbox == s.mailbox;
    }
    NobodyDies(s, t);
  }

  lemma StaysAlive(p: P.Proc, tag: nat)
    ensures P.Step(p, StopMail(tag)).0.phase == p.phase
  {
  }

  lemma StartTells(env: Env, s: Sys, cb: P.Cb)
    requires s.phase.Starting? && s.nextId !in s.workers
    ensures var t := OnStart(env, s, cb); DeathsAreTold(s, t, News(s, t)) && t.mailbox == s.mailbox && News(s, t) == []
  {
    NobodyDies(s, OnStart(env, s, cb));
  }

  lemma TakeTells(s: Sys, order: seq<Entry>)
    requires s.mailbox != []
    ensures var t := OnTake(s, order); DeathsAreTold(s, t, News(s, t)) && t.mailbox == s.mailbox[1..]
  {
    hide OnTake;
    TakeShape(s, order);
    NobodyDies(s, OnTake(s, order));
  }

  /** Theorem. The group's mailbox loses a message only as the group takes it, hears it or goes
      down; what comes in is one assign or revoke message for each one announced while the client
      runs and, as a consumer ends, its exit, with the answer to the stop request it had. */
  lemma MailIsKeptAndTrue(env: Env, s: Sys, a: Action)
    requires LogsOk(env) && Reachable(env, s) && Can(env, s, a)
    ensures var (t, news) := (Apply(env, s, a), News(s, Apply(env, s, a)));
      && (if a.TakeMail? then t.mailbox == s.mailbox[1..]
          else if a.HearStopped? then t.mailbox == s.mailbox[..a.at] + s.mailbox[a.at + 1..]
          else s.mailbox <= t.mailbox || (a.StopNext? && t.phase.Down?))
      && (a.AssignCallback? ==> news == if s.running then [Assign(a.parts)] else [])
      && (a.RevokeCallback? ==> news == if s.running then [Revoke(a.tps)] else [])
      && (!a.AssignCallback? && !a.RevokeCallback? ==> forall m :: m in news ==> m.Exit? || m.Stopped?)
      && DeathsAreTold(s, t, news)
  {
    hide Inv, OnWorker, OnAssign, OnTake, OnStart, OnStopNext, OnTimeout, Lists, WorkerCan, DeathsAreTold, Reachable;
    ReachableInv(env, s);
    var t := Apply(env, s, a);
    match a
    case WorkerEvent(pid, e) => WorkerTellsDeaths(env, s, pid, e);
    case StopTimesOut => TimeoutTells(s);
    case StopNext => StopNextTells(s);
    case StartNext(cb) =>
      IdsOf(env, s);
      StartTells(env, s, cb);
    case TakeMail(order) => TakeTells(s, order);
    case AssignCallback(parts, starts) =>
      AssignTells(s, parts, starts);
      NobodyDies(s, t);
    case _ => NobodyDies(s, t);
  }
}
