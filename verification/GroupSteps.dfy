/**
  Every step of the group protocol keeps the invariant.
 */
module GroupSteps {
  import opened Prelude
  import opened Consumer
  import opened QueuePoll
  import opened GroupProtocol
  import opened GroupInvariant
  import P = ConsumerProcess

  // ------------------------------------------------------------- preservation: librdkafka

  lemma FetchOnQueue(env: Env, done: set<Rec>, held: seq<Offset>, q: Queue, n: nat)
    requires QueueOk(env, q) && q.next + n <= |env.log(q.tp)|
    ensures var q' := Fetched(env, q, n);
      && QueueOk(env, q') && Head(q') == Head(q)
      && (Cursor(env, done, held, q) ==> Cursor(env, done, held, q'))
  {
    var log := env.log(q.tp);
    var got, flat := log[q.next..q.next + n], Flatten(q.events);
    FlattenAppend(q.events, [got]);
    FlattenOne(got);
    assert flat + got == log[q.next - |flat|..q.next + n];
  }

  ghost predicate Replaces(env: Env, queues: map<nat, Queue>, id: nat, q: Queue) {
    id in queues && QueueOk(env, q) && q.tp == queues[id].tp && (queues[id].forwarded ==> q.forwarded)
  }

  /** Changing what one queue holds, or forwarding it, is invisible to most of the state. */
  lemma SetQueueKeepsStructure(env: Env, s: Sys, id: nat, q: Queue)
    requires Structure(env, s) && Replaces(env, s.queues, id, q)
    ensures Structure(env, s.(queues := s.queues[id := q]))
  {
  }

  lemma SetQueueKeepsControl(env: Env, s: Sys, id: nat, q: Queue)
    requires Control(s) && Replaces(env, s.queues, id, q)
    ensures Control(s.(queues := s.queues[id := q]))
  {
  }

  /** A queue that serves whoever the old one served can take its place. */
  ghost predicate ServesAsBefore(env: Env, done: set<Rec>, q: Queue, q': Queue) {
    && q'.tp == q.tp && q'.forwarded == q.forwarded
    && forall held :: Cursor(env, done, held, q) ==> Cursor(env, done, held, q')
  }

  lemma SetQueueKeepsDelivery(env: Env, done: set<Rec>, workers: map<nat, Worker>, queues: map<nat, Queue>, id: nat,
                              q: Queue)
    requires Delivery(env, done, workers, queues) && id in queues && ServesAsBefore(env, done, queues[id], q)
    ensures Delivery(env, done, workers, queues[id := q])
  {
  }

  lemma SetQueueKeepsPending(env: Env, s: Sys, id: nat, q: Queue)
    requires PendingOk(env, s.done, s.phase, s.mailbox, s.workers, s.queues)
    requires id in s.queues && ServesAsBefore(env, s.done, s.queues[id], q)
    ensures PendingOk(env, s.done, s.phase, s.mailbox, s.workers, s.queues[id := q])
  {
    var queues' := s.queues[id := q];
    forall part | IsPending(s.phase, s.mailbox, part) ensures PartOk(env, s.done, s.workers, queues', part) {
      assert PartOk(env, s.done, s.workers, s.queues, part);
    }
  }

  lemma FetchServesAsBefore(env: Env, done: set<Rec>, q: Queue, n: nat)
    requires QueueOk(env, q) && q.next + n <= |env.log(q.tp)|
    ensures ServesAsBefore(env, done, q, Fetched(env, q, n))
  {
    forall held | Cursor(env, done, held, q)
      ensures Cursor(env, done, held, Fetched(env, q, n))
    {
      FetchOnQueue(env, done, held, q, n);
    }
  }

  lemma FetchKeepsHistory(env: Env, s: Sys, id: nat, n: nat)
    requires Data(env, s) && Can(env, s, Fetch(id, n)) && QueueOk(env, s.queues[id])
    ensures var s' := OnFetch(env, s, id, n);
      NowBelow(env, s.storedNow, s'.queues) && DroppedOk(s.dropped, s.storedNow, s'.queues)
  {
    FetchOnQueue(env, s.done, [], s.queues[id], n);
  }

  lemma FetchKeepsUsers(env: Env, s: Sys, id: nat, n: nat)
    requires Data(env, s) && id in s.queues && QueueOk(env, s.queues[id]) &&
      s.queues[id].next + n <= |env.log(s.queues[id].tp)|
    ensures var queues' := s.queues[id := Fetched(env, s.queues[id], n)];
      Delivery(env, s.done, s.workers, queues') && PendingOk(env, s.done, s.phase, s.mailbox, s.workers, queues')
  {
    hide Delivery, PendingOk, QueueOk;
    FetchServesAsBefore(env, s.done, s.queues[id], n);
    SetQueueKeepsDelivery(env, s.done, s.workers, s.queues, id, Fetched(env, s.queues[id], n));
    SetQueueKeepsPending(env, s, id, Fetched(env, s.queues[id], n));
  }

  lemma FetchKeeps(env: Env, s: Sys, id: nat, n: nat)
    requires Inv(env, s) && Can(env, s, Fetch(id, n))
    ensures Inv(env, OnFetch(env, s, id, n))
  {
    hide Ids, Procs, Queues, ActiveOk, Tracked, Delivery, PendingOk, StoredOk, NowBelow, DroppedOk, PolledInLog,
      Stage, StopList, ForwardedOk, Requests, QueueOk;
    QueueIsOk(env, s, id);
    FetchOnQueue(env, s.done, [], s.queues[id], n);
    FetchKeepsUsers(env, s, id, n);
    FetchKeepsHistory(env, s, id, n);
    SetQueueKeepsStructure(env, s, id, Fetched(env, s.queues[id], n));
    SetQueueKeepsControl(env, s, id, Fetched(env, s.queues[id], n));
  }

  lemma QueueIsOk(env: Env, s: Sys, id: nat)
    requires Queues(env, s.queues, Outstanding(s)) && id in s.queues
    ensures QueueOk(env, s.queues[id])
  {
  }

  lemma DrainOnQueue(env: Env, q: Queue)
    requires QueueOk(env, q) && q.events != []
    ensures var q' := q.(events := q.events[1..]);
      && QueueOk(env, q') && Head(q') == Head(q) + |q.events[0]|
    ensures forall x :: x in q.events[0] ==> exists i :: Head(q) <= i < |env.log(q.tp)| && env.log(q.tp)[i] == x
  {
    var flat, first, rest := Flatten(q.events), q.events[0], Flatten(q.events[1..]);
    var log, a := env.log(q.tp), q.next - |flat|;
    assert rest == flat[|first|..];
    SplitStretch(log, a, q.next, |first|);
    forall x | x in first ensures exists i :: a <= i < |log| && log[i] == x {
      var k :| 0 <= k < |first| && first[k] == x;
      assert flat[k] == x && log[a..q.next][k] == log[a + k];
    }
  }

  lemma DrainKeepsHistory(env: Env, s: Sys, id: nat)
    requires Data(env, s) && Queues(env, s.queues, Outstanding(s)) && Can(env, s, Drain(id))
    ensures var s' := OnDrain(s, id);
      && NowBelow(env, s.storedNow, s'.queues)
      && DroppedOk(s'.dropped, s.storedNow, s'.queues)
  {
    DrainOnQueue(env, s.queues[id]);
  }

  lemma DrainKeepsDelivery(env: Env, s: Sys, id: nat)
    requires Data(env, s) && Can(env, s, Drain(id))
    ensures var s' := OnDrain(s, id);
      && Delivery(env, s.done, s.workers, s'.queues)
      && PendingOk(env, s.done, s.phase, s.mailbox, s.workers, s'.queues)
  {
  }

  lemma DrainKeeps(env: Env, s: Sys, id: nat)
    requires Inv(env, s) && Can(env, s, Drain(id))
    ensures Inv(env, OnDrain(s, id))
  {
    DrainOnQueue(env, s.queues[id]);
    DrainKeepsHistory(env, s, id);
    DrainKeepsDelivery(env, s, id);
    SetQueueKeepsStructure(env, s, id, OnDrain(s, id).queues[id]);
    SetQueueKeepsControl(env, s, id, OnDrain(s, id).queues[id]);
  }

  lemma {:induction false} RebalancesAppend(a: seq<Mail>, b: seq<Mail>)
    ensures Rebalances(a + b) == Rebalances(a) + Rebalances(b)
  {
    if a == [] {
      assert a + b == b;
    } else {
      assert (a + b)[0] == a[0] && (a + b)[1..] == a[1..] + b;
      RebalancesAppend(a[1..], b);
      var own := if a[0].Assign? || a[0].Revoke? then [a[0]] else [];
      assert own + (Rebalances(a[1..]) + Rebalances(b)) == (own + Rebalances(a[1..])) + Rebalances(b);
    }
  }

  lemma {:induction false} NoRebalances(mailbox: seq<Mail>)
    requires forall m :: m in mailbox ==> !m.Assign? && !m.Revoke?
    ensures Rebalances(mailbox) == []
  {
    if mailbox == [] {
    } else {
      NoRebalances(mailbox[1..]);
    }
  }

  lemma {:induction false} RebalancesHold(mailbox: seq<Mail>, m: Mail)
    requires m in mailbox && (m.Assign? || m.Revoke?)
    ensures m in Rebalances(mailbox)
  {
    if mailbox[0] == m {
    } else {
      RebalancesHold(mailbox[1..], m);
    }
  }

  lemma OneRebalance(m: Mail)
    ensures Rebalances([m]) == if m.Assign? || m.Revoke? then [m] else []
  {
    assert [m][1..] == [];
  }

  /** Nothing is assigned, so nothing is active, alive or told of. */
  lemma NothingAssigned(env: Env, s: Sys)
    requires Inv(env, s) && s.assignment.None? && !s.revoking && s.running
    ensures s.queues == map[] && s.active == map[] && (forall pid :: !AliveIn(s.workers, pid))
    ensures s.phase.Ready? || Ending(s.phase)
    ensures s.phase.Ready? ==> Rebalances(s.mailbox) == []
  {
    assert forall id :: id !in s.queues;
    forall tp ensures tp !in s.active {
    }
  }

  lemma NewQueueOk(env: Env, done: set<Rec>, stored: map<TP, int>, tp: TP, start: nat)
    requires RestartsNoLater(env, stored, tp, start) && StoredOk(env, done, stored)
    ensures Cursor(env, done, [], Queue(tp, [], start, false))
  {
    assert StoredSafe(env, done, tp, StoredOf(env, stored, tp));
    assert env.log(tp)[start..start] == [];
  }

  lemma NewQueuesOk(env: Env, done: set<Rec>, stored: map<TP, int>, parts: seq<Part>, starts: seq<nat>, first: nat)
    requires StartsOk(env, stored, parts, starts) && StoredOk(env, done, stored)
    ensures var queues := NewQueues(parts, starts, first);
      forall id :: id in queues ==> Cursor(env, done, [], queues[id])
  {
    hide NewQueues;
    var queues := NewQueues(parts, starts, first);
    forall id | id in queues ensures Cursor(env, done, [], queues[id]) {
      NewQueueOk(env, done, stored, parts[id - first].tp, starts[id - first]);
    }
  }

  lemma NewQueuesDistinct(env: Env, parts: seq<Part>, starts: seq<nat>, first: nat)
    requires NewParts(parts, first) && |starts| == |parts|
    ensures var queues := NewQueues(parts, starts, first);
      && (forall id :: id in queues ==> queues[id].tp in SetOf(TpsOf(parts)))
      && (forall a, b :: a in queues && b in queues && queues[a].tp == queues[b].tp ==> a == b)
  {
    hide NewQueues;
    var queues, tps := NewQueues(parts, starts, first), TpsOf(parts);
    assert forall id :: id in queues ==> queues[id].tp == tps[id - first];
  }

  /** Each partition of the assignment is served by its own new queue. */
  ghost predicate Serves(env: Env, done: set<Rec>, part: Part, queues: map<nat, Queue>, first: nat) {
    && first <= part.queue && part.queue in queues
    && var q := queues[part.queue]; q.tp == part.tp && !q.forwarded && Cursor(env, done, [], q)
  }

  lemma NewQueuesServe(env: Env, done: set<Rec>, stored: map<TP, int>, parts: seq<Part>, starts: seq<nat>, first: nat)
    requires NewParts(parts, first) && StartsOk(env, stored, parts, starts) && StoredOk(env, done, stored)
    ensures forall part :: part in parts ==> Serves(env, done, part, NewQueues(parts, starts, first), first)
  {
    hide NewQueues;
    forall part | part in parts ensures Serves(env, done, part, NewQueues(parts, starts, first), first) {
      var i :| 0 <= i < |parts| && parts[i] == part;
      NewQueueOk(env, done, stored, part.tp, starts[i]);
      assert part.queue == first + i;
    }
  }

  lemma NothingPending(env: Env, s: Sys)
    requires PendingOk(env, s.done, s.phase, s.mailbox, s.workers, s.queues) && s.queues == map[]
    ensures forall part :: !IsPending(s.phase, s.mailbox, part)
  {
    assert forall part :: IsPending(s.phase, s.mailbox, part) ==> part.queue in s.queues;
  }

  lemma AssignKeepsPending(env: Env, s: Sys, parts: seq<Part>, queues: map<nat, Queue>)
    requires forall part :: !IsPending(s.phase, s.mailbox, part)
    requires forall pid :: pid in s.workers ==> s.workers[pid].queue < s.nextId
    requires forall part :: part in parts ==> Serves(env, s.done, part, queues, s.nextId)
    ensures PendingOk(env, s.done, s.phase, s.mailbox + [Assign(parts)], s.workers, queues)
  {
    forall part | IsPending(s.phase, s.mailbox + [Assign(parts)], part)
      ensures PartOk(env, s.done, s.workers, queues, part)
    {
      assert !IsPending(s.phase, s.mailbox, part);
      assert part in parts;
    }
  }

  lemma AnnounceAssign(s: Sys, parts: seq<Part>)
    requires Rebalances(s.mailbox) == [] && Distinct(TpsOf(parts))
    ensures Announced(false, Some(SetOf(TpsOf(parts))), Rebalances(s.mailbox + [Assign(parts)]), {})
  {
    RebalancesAppend(s.mailbox, [Assign(parts)]);
    OneRebalance(Assign(parts));
  }

  lemma AssignKeepsStage(env: Env, s: Sys, parts: seq<Part>, starts: seq<nat>)
    requires Control(s) && s.running && |starts| == |parts| && AssignIsFresh(s, parts)
    requires s.active == map[] && s.queues == map[] && (s.phase.Ready? || Ending(s.phase))
    requires s.phase.Ready? ==> Rebalances(s.mailbox) == []
    ensures Control(OnAssign(s, parts, starts))
  {
    hide NewQueues, Announced, Distinct, Rebalances;
    assert s.active.Keys == {};
    if s.phase.Ready? { AnnounceAssign(s, parts); }
  }

  lemma AssignKeepsData(env: Env, s: Sys, parts: seq<Part>, starts: seq<nat>)
    requires Data(env, s) && NewParts(parts, s.nextId) && StartsOk(env, s.stored, parts, starts)
    requires s.queues == map[] && (forall pid :: !AliveIn(s.workers, pid)) && s.running
    requires forall pid :: pid in s.workers ==> s.workers[pid].queue < s.nextId
    ensures Data(env, OnAssign(s, parts, starts))
  {
    hide NewQueues;
    var queues := NewQueues(parts, starts, s.nextId);
    assert map[] + queues == queues;
    NothingPending(env, s);
    NewQueuesServe(env, s.done, s.stored, parts, starts, s.nextId);
    AssignKeepsPending(env, s, parts, queues);
  }

  lemma NewQueuesAreQueues(env: Env, s: Sys, parts: seq<Part>, starts: seq<nat>)
    requires NewParts(parts, s.nextId) && StartsOk(env, s.stored, parts, starts) && StoredOk(env, s.done, s.stored)
    ensures Queues(env, NewQueues(parts, starts, s.nextId), SetOf(TpsOf(parts)))
  {
    hide NewQueues, StoredOk, NewParts;
    NewQueuesOk(env, s.done, s.stored, parts, starts, s.nextId);
    NewQueuesDistinct(env, parts, starts, s.nextId);
  }

  lemma NewQueuesKeepIds(s: Sys, parts: seq<Part>, starts: seq<nat>)
    requires Ids(s.queues, s.workers, s.mailbox, s.nextId) && |starts| == |parts|
    ensures Ids(NewQueues(parts, starts, s.nextId), s.workers, s.mailbox + [Assign(parts)], s.nextId + |parts|)
  {
    hide NewQueues;
  }

  lemma AssignKeepsStructure(env: Env, s: Sys, parts: seq<Part>, starts: seq<nat>)
    requires Structure(env, s) && NewParts(parts, s.nextId) && StartsOk(env, s.stored, parts, starts)
    requires s.queues == map[] && s.active == map[] && s.running && StoredOk(env, s.done, s.stored)
    ensures Structure(env, OnAssign(s, parts, starts))
  {
    hide NewQueues, StoredOk, NewParts, Ids, Procs, Queues, Tracked;
    assert map[] + NewQueues(parts, starts, s.nextId) == NewQueues(parts, starts, s.nextId);
    NewQueuesAreQueues(env, s, parts, starts);
    NewQueuesKeepIds(s, parts, starts);
  }

  lemma AssignKeeps(env: Env, s: Sys, parts: seq<Part>, starts: seq<nat>)
    requires Inv(env, s) && |starts| == |parts| && EnvAllows(env, s, AssignCallback(parts, starts))
    ensures Inv(env, OnAssign(s, parts, starts))
  {
    if s.running {
      NothingAssigned(env, s);
      AssignKeepsStructure(env, s, parts, starts);
      AssignKeepsData(env, s, parts, starts);
      AssignKeepsStage(env, s, parts, starts);
    }
  }

  lemma RevokeIsAnnounced(waiting: seq<Mail>, assignment: Option<set<TP>>, covered: set<TP>, tps: seq<TP>)
    requires Announced(false, assignment, waiting, covered) && SetOf(tps) == assignment.GetOr({})
    ensures Announced(true, assignment, waiting + [Revoke(tps)], covered)
  {
    assert (waiting + [Revoke(tps)])[..|waiting|] == waiting;
  }

  lemma RevokeKeepsStage(s: Sys, tps: seq<TP>)
    requires Stage(s) && s.running && RevokeIsWhole(s, tps)
    ensures Stage(OnRevoke(s, tps))
  {
    var waiting := Rebalances(s.mailbox);
    RebalancesAppend(s.mailbox, [Revoke(tps)]);
    OneRebalance(Revoke(tps));
    if s.phase.Ready? {
      RevokeIsAnnounced(waiting, s.assignment, s.active.Keys, tps);
    } else if s.phase.Starting? {
      RevokeIsAnnounced(waiting, s.assignment, s.active.Keys + SetOf(TpsOf(s.phase.todo)), tps);
    }
    hide Announced;
  }

  lemma RevokeKeepsControl(s: Sys, tps: seq<TP>)
    requires Control(s) && s.running && RevokeIsWhole(s, tps)
    ensures Control(OnRevoke(s, tps))
  {
    RevokeKeepsStage(s, tps);
    hide Stage;
  }

  /** Mail that is not an assign message makes nothing pending. */
  lemma PendingFrame(phase: Phase, mailbox: seq<Mail>, phase': Phase, mailbox': seq<Mail>)
    requires forall m :: m in mailbox' && m.Assign? ==> m in mailbox
    requires phase' == phase || (!phase'.Starting? && !Ending(phase))
    ensures forall part :: IsPending(phase', mailbox', part) ==> IsPending(phase, mailbox, part)
  {
  }

  lemma RevokeKeeps(env: Env, s: Sys, tps: seq<TP>)
    requires Inv(env, s) && EnvAllows(env, s, RevokeCallback(tps))
    ensures Inv(env, OnRevoke(s, tps))
  {
    if s.running {
      RevokeKeepsControl(s, tps);
      PendingFrame(s.phase, s.mailbox, s.phase, s.mailbox + [Revoke(tps)]);
    }
  }

  // ------------------------------------------------------------ preservation: the group

  /** The handler's message leaves the mailbox: what is said about the rest. */
  lemma TakeKeepsRest(env: Env, s: Sys, phase: Phase)
    requires Structure(env, s) && Data(env, s) && s.phase.Ready? && s.mailbox != [] && (phase.Ready? || phase.Stopping?)
    ensures var t := s.(mailbox := s.mailbox[1..], phase := phase); Structure(env, t) && Data(env, t)
  {
    PendingFrame(s.phase, s.mailbox, phase, s.mailbox[1..]);
  }

  /** Consumers that are alive have no stop request between two handlers of the group. */
  lemma ReadyHasNoRequests(s: Sys, phase: Phase, mailbox: seq<Mail>)
    requires Requests(s.phase, s.workers, s.mailbox, s.nextId) && !s.phase.Waiting? && !phase.Waiting?
    ensures Requests(phase, s.workers, mailbox, s.nextId)
  {
  }

  lemma AnnouncedAssign(revoking: bool, assignment: Option<set<TP>>, waiting: seq<Mail>, covered: set<TP>)
    requires Announced(revoking, assignment, waiting, covered) && waiting != [] && waiting[0].Assign?
    ensures var tps := TpsOf(waiting[0].parts);
      && covered == {} && assignment == Some(SetOf(tps)) && Distinct(tps)
      && Announced(revoking, assignment, waiting[1..], SetOf(tps))
    ensures forall m :: m in waiting[1..] ==> !m.Assign?
  {
  }

  lemma TakeAssignKeepsStage(s: Sys)
    requires Stage(s) && s.phase.Ready? && s.mailbox != [] && s.mailbox[0].Assign?
    ensures Stage(s.(mailbox := s.mailbox[1..], phase := Starting(s.mailbox[0].parts)))
  {
    var head, rest := s.mailbox[0], s.mailbox[1..];
    var waiting := Rebalances(s.mailbox);
    assert waiting == [head] + Rebalances(rest) && waiting[1..] == Rebalances(rest);
    AnnouncedAssign(s.revoking, s.assignment, waiting, s.active.Keys);
    forall m | m in rest && m.Assign? ensures m in Rebalances(rest) {
      RebalancesHold(rest, m);
    }
    hide Announced, Distinct;
    assert s.active.Keys + SetOf(TpsOf(head.parts)) == SetOf(TpsOf(head.parts));
  }

  lemma TakeAssignKeepsPending(env: Env, s: Sys)
    requires PendingOk(env, s.done, s.phase, s.mailbox, s.workers, s.queues)
    requires s.phase.Ready? && s.mailbox != [] && s.mailbox[0].Assign?
    ensures PendingOk(env, s.done, Starting(s.mailbox[0].parts), s.mailbox[1..], s.workers, s.queues)
  {
    var head, rest := s.mailbox[0], s.mailbox[1..];
    forall part | IsPending(Starting(head.parts), rest, part) ensures IsPending(Ready, s.mailbox, part) {
      assert head in s.mailbox;
    }
  }

  lemma TakeAssignKeeps(env: Env, s: Sys, order: seq<Entry>)
    requires Inv(env, s) && s.phase.Ready? && s.mailbox != [] && s.mailbox[0].Assign?
    ensures Inv(env, OnTake(s, order))
  {
    var head, rest := s.mailbox[0], s.mailbox[1..];
    TakeAssignKeepsStage(s);
    TakeAssignKeepsPending(env, s);
    ReadyHasNoRequests(s, Starting(head.parts), rest);
    TakeKeepsRest(env, s, Ready);
    hide Ids, Procs, Queues, ActiveOk, Tracked, Delivery, PendingOk, StoredOk, NowBelow, DroppedOk, PolledInLog,
      Stage, StopList, ForwardedOk, Requests;
  }

  /** Stopping every consumer of the map. */
  lemma StopAll(env: Env, s: Sys, rest: seq<Entry>, why: Why)
    requires Structure(env, s) && Lists(rest, s.active)
    ensures StopList(Stopping(rest, why), s.workers, s.active) && ForwardedOk(Stopping(rest, why), s.active, s.queues)
  {
  }

  lemma TakeRevokeStage(s: Sys)
    requires Stage(s) && s.phase.Ready? && s.mailbox != [] && s.mailbox[0].Revoke?
    ensures s.active.Keys == SetOf(s.mailbox[0].tps) == s.assignment.GetOr({}) && s.revoking && s.running
    ensures Rebalances(s.mailbox[1..]) == []
  {
    assert Rebalances(s.mailbox) == [s.mailbox[0]] + Rebalances(s.mailbox[1..]);
  }

  lemma PairsListAll(active: map<TP, Entry>, tps: seq<TP>)
    requires active.Keys == SetOf(tps)
    ensures Lists(PairsFor(active, tps), active)
  {
    var rest := PairsFor(active, tps);
    forall tp | tp in active ensures active[tp] in rest {
      assert tp in SetOf(tps);
      var i :| 0 <= i < |tps| && tps[i] == tp;
      assert rest[i] == active[tp];
    }
    forall e | e in rest ensures exists tp :: tp in active && active[tp] == e {
      var i :| 0 <= i < |rest| && rest[i] == e;
      assert tps[i] in active;
    }
  }

  /** The group enters stop_consumers with every consumer it knows. */
  lemma EnterStopping(env: Env, s: Sys, mailbox: seq<Mail>, rest: seq<Entry>, why: Why)
    requires Inv(env, s) && s.phase.Ready? && Lists(rest, s.active) && forall m :: m in mailbox ==> m in s.mailbox
    requires why == Revoking ==> s.revoking && s.active.Keys == s.assignment.GetOr({}) && Rebalances(mailbox) == []
    ensures Inv(env, s.(mailbox := mailbox, phase := Stopping(rest, why)))
  {
    StopAll(env, s, rest, why);
    ReadyHasNoRequests(s, Stopping(rest, why), mailbox);
    PendingFrame(s.phase, s.mailbox, Stopping(rest, why), mailbox);
  }

  lemma TakeRevokeIs(s: Sys, order: seq<Entry>)
    requires s.mailbox != [] && s.mailbox[0].Revoke? && forall tp :: tp in s.mailbox[0].tps ==> tp in s.active
    ensures OnTake(s, order) == s.(mailbox := s.mailbox[1..],
      phase := Stopping(PairsFor(s.active, s.mailbox[0].tps), Revoking))
  {
    hide PairsFor;
  }

  lemma TakeRevokeKeeps(env: Env, s: Sys, order: seq<Entry>)
    requires Inv(env, s) && s.phase.Ready? && s.mailbox != [] && s.mailbox[0].Revoke?
    ensures Inv(env, OnTake(s, order))
  {
    var tps, rest := s.mailbox[0].tps, s.mailbox[1..];
    TakeRevokeStage(s);
    assert forall tp :: tp in tps ==> tp in s.active.Keys;
    var pairs := PairsFor(s.active, tps);
    PairsListAll(s.active, tps);
    EnterStopping(env, s, rest, pairs, Revoking);
    hide Inv;
    TakeRevokeIs(s, order);
  }

  lemma TakeOtherKeeps(env: Env, s: Sys, order: seq<Entry>)
    requires Inv(env, s) && s.phase.Ready? && s.mailbox != [] && (s.mailbox[0].Exit? || s.mailbox[0].Stopped?)
    requires s.mailbox[0].Exit? ==> Lists(order, s.active)
    ensures Inv(env, OnTake(s, order))
  {
    var rest := s.mailbox[1..];
    if s.mailbox[0].Exit? && !s.mailbox[0].normal && s.active != map[] {
      EnterStopping(env, s, rest, order, Terminating);
    } else {
      assert Rebalances(s.mailbox) == [] + Rebalances(rest);
      TakeKeepsRest(env, s, Ready);
      ReadyHasNoRequests(s, Ready, rest);
    }
  }

  lemma ShutdownKeeps(env: Env, s: Sys, order: seq<Entry>)
    requires Inv(env, s) && s.phase.Ready? && Lists(order, s.active)
    ensures Inv(env, s.(phase := Stopping(order, Terminating)))
  {
    EnterStopping(env, s, s.mailbox, order, Terminating);
  }

  lemma RestartKeeps(env: Env, s: Sys)
    requires Inv(env, s) && s.phase.Down?
    ensures Inv(env, s.(running := true, phase := Ready, storedNow := {}, dropped := {}))
  {
    ReadyHasNoRequests(s, Ready, []);
    assert Rebalances([]) == [];
  }

  // -------------------------------------------------------------- starting a consumer

  lemma NewConsumer(mode: P.Mode, cb: P.Cb)
    ensures var p := P.Init(mode, cb); P.Inv(p) && p.Alive() && Held(p) == [] && p.mailbox == []
  {
    assert P.Waiting([]) == [];
  }

  lemma StartKeepsMap(s: Sys, part: Part, p: P.Proc)
    requires ActiveOk(s.active, s.workers, s.queues) && Tracked(s.workers, s.active)
    requires s.nextId !in s.workers && part.tp !in s.active
    requires part.queue in s.queues && s.queues[part.queue].tp == part.tp
    ensures var workers := s.workers[s.nextId := Worker(part.tp, part.queue, p)];
      var active := s.active[part.tp := Entry(s.nextId, part.queue)];
      ActiveOk(active, workers, s.queues) && Tracked(workers, active)
  {
  }

  lemma StartKeepsStructure(env: Env, s: Sys, cb: P.Cb)
    requires Structure(env, s) && s.phase.Starting? && s.phase.todo != []
    requires PartOk(env, s.done, s.workers, s.queues, s.phase.todo[0])
    requires s.phase.todo[0].tp !in s.active
    ensures Structure(env, OnStart(env, s, cb))
  {
    var part, s' := s.phase.todo[0], OnStart(env, s, cb);
    NewConsumer(env.mode(part.tp), cb);
    StartKeepsMap(s, part, P.Init(env.mode(part.tp), cb));
    assert Ids(s'.queues, s'.workers, s'.mailbox, s'.nextId);
    assert Procs(env, s'.workers);
    hide Ids, Procs, Queues, ActiveOk, Tracked, PartOk;
  }

  lemma StartKeepsDelivery(env: Env, s: Sys, cb: P.Cb)
    requires Structure(env, s) && s.phase.Starting? && s.phase.todo != []
    requires Delivery(env, s.done, s.workers, s.queues) && PartOk(env, s.done, s.workers, s.queues, s.phase.todo[0])
    ensures Delivery(env, s.done, OnStart(env, s, cb).workers, s.queues)
  {
    NewConsumer(env.mode(s.phase.todo[0].tp), cb);
  }

  lemma StartKeepsPending(env: Env, s: Sys, cb: P.Cb)
    requires s.phase.Starting? && s.phase.todo != [] && Distinct(TpsOf(s.phase.todo))
    requires PendingOk(env, s.done, s.phase, s.mailbox, s.workers, s.queues)
    requires forall m :: m in s.mailbox ==> !m.Assign?
    ensures var s' := OnStart(env, s, cb); PendingOk(env, s.done, s'.phase, s.mailbox, s'.workers, s.queues)
  {
    var s', todo := OnStart(env, s, cb), s.phase.todo;
    forall part | IsPending(s'.phase, s.mailbox, part) ensures PartOk(env, s.done, s'.workers, s.queues, part) {
      var i :| 0 < i < |todo| && todo[i] == part;
      assert IsPending(s.phase, s.mailbox, part) && IsPending(s.phase, s.mailbox, todo[0]);
      assert TpsOf(todo)[0] != TpsOf(todo)[i];
    }
  }

  lemma StartKeepsControl(env: Env, s: Sys, cb: P.Cb)
    requires Control(s) && s.phase.Starting? && s.phase.todo != []
    ensures Control(OnStart(env, s, cb))
  {
    NewConsumer(env.mode(s.phase.todo[0].tp), cb);
    var tps := TpsOf(s.phase.todo);
    var rest := TpsOf(s.phase.todo[1..]);
    assert rest == tps[1..];
    assert SetOf(tps) == {tps[0]} + SetOf(rest);
    assert tps[0] !in SetOf(rest);
    var s' := OnStart(env, s, cb);
    assert s.active.Keys + SetOf(tps) == s'.active.Keys + SetOf(rest);
  }

  lemma StartingDoneKeepsControl(s: Sys)
    requires Control(s) && s.phase == Starting([])
    ensures Control(s.(phase := Ready))
  {
    assert s.active.Keys + SetOf(TpsOf([])) == s.active.Keys;
    hide Announced;
  }

  lemma StartingDone(env: Env, s: Sys)
    requires Inv(env, s) && s.phase == Starting([])
    ensures Inv(env, s.(phase := Ready))
  {
    hide Ids, Procs, Queues, ActiveOk, Tracked, Delivery, PendingOk, StoredOk, NowBelow, DroppedOk, PolledInLog,
      Stage, StopList, ForwardedOk, Requests, Control;
    StartingDoneKeepsControl(s);
    PendingFrame(s.phase, s.mailbox, Ready, s.mailbox);
    FewerPending(env, s, Ready, s.mailbox);
  }

  lemma FewerPending(env: Env, s: Sys, phase: Phase, mailbox: seq<Mail>)
    requires PendingOk(env, s.done, s.phase, s.mailbox, s.workers, s.queues)
    requires forall part :: IsPending(phase, mailbox, part) ==> IsPending(s.phase, s.mailbox, part)
    ensures PendingOk(env, s.done, phase, mailbox, s.workers, s.queues)
  {
    hide PartOk;
  }

  lemma StartKeeps(env: Env, s: Sys, cb: P.Cb)
    requires Inv(env, s) && s.phase.Starting?
    ensures Inv(env, OnStart(env, s, cb))
  {
    if s.phase.todo == [] {
      StartingDone(env, s);
    } else {
      var part := s.phase.todo[0];
      assert IsPending(s.phase, s.mailbox, part);
      assert TpsOf(s.phase.todo)[0] in SetOf(TpsOf(s.phase.todo));
      StartKeepsStructure(env, s, cb);
      StartKeepsDelivery(env, s, cb);
      StartKeepsPending(env, s, cb);
      StartKeepsControl(env, s, cb);
      hide Ids, Procs, Queues, ActiveOk, Tracked, Delivery, PendingOk, StoredOk, NowBelow, DroppedOk, PolledInLog,
        Stage, StopList, ForwardedOk, Requests;
    }
  }

  // --------------------------------------------------------------- stopping consumers

  /** When nothing is left to stop, nobody is alive. */
  lemma NobodyLeft(s: Sys)
    requires StopList(s.phase, s.workers, s.active) && s.phase.Stopping? && s.phase.rest == []
    ensures forall pid :: !AliveIn(s.workers, pid)
  {
  }

  lemma NoAssignWaiting(mailbox: seq<Mail>)
    requires Rebalances(mailbox) == []
    ensures forall m :: m in mailbox ==> !m.Assign? && !m.Revoke?
  {
    forall m | m in mailbox && (m.Assign? || m.Revoke?) ensures m in Rebalances(mailbox) {
      RebalancesHold(mailbox, m);
    }
  }

  lemma FinishKeeps(env: Env, s: Sys)
    requires Inv(env, s) && s.phase.Stopping? && s.phase.rest == []
    ensures Inv(env, OnStopNext(s))
  {
    NobodyLeft(s);
    var s' := OnStopNext(s);
    if s.phase.why == Revoking {
      NoAssignWaiting(s.mailbox);
      assert forall part :: !IsPending(Ready, s.mailbox, part);
    } else {
      assert forall part :: !IsPending(Down, [], part);
    }
  }

  /** The same consumers, at the same partitions, none of them risen from the dead. */
  ghost predicate SameHome(workers: map<nat, Worker>, workers': map<nat, Worker>) {
    && workers'.Keys == workers.Keys
    && forall pid :: pid in workers ==>
         && workers'[pid].tp == workers[pid].tp && workers'[pid].queue == workers[pid].queue
         && (workers'[pid].proc.Alive() ==> workers[pid].proc.Alive())
  }

  lemma SameHomeKeepsMap(s: Sys, workers': map<nat, Worker>)
    requires SameHome(s.workers, workers')
    requires ActiveOk(s.active, s.workers, s.queues) && Tracked(s.workers, s.active)
    ensures ActiveOk(s.active, workers', s.queues) && Tracked(workers', s.active)
  {
    forall pid | AliveIn(workers', pid) ensures AliveIn(s.workers, pid) {
    }
  }

  lemma SameHomeKeepsStopList(s: Sys, workers': map<nat, Worker>)
    requires SameHome(s.workers, workers') && StopList(s.phase, s.workers, s.active)
    ensures StopList(s.phase, workers', s.active)
  {
    forall pid | AliveIn(workers', pid) ensures AliveIn(s.workers, pid) {
    }
  }

  lemma SameHomeKeepsPending(env: Env, s: Sys, workers': map<nat, Worker>)
    requires SameHome(s.workers, workers') && PendingOk(env, s.done, s.phase, s.mailbox, s.workers, s.queues)
    ensures PendingOk(env, s.done, s.phase, s.mailbox, workers', s.queues)
  {
    forall part | IsPending(s.phase, s.mailbox, part) ensures PartOk(env, s.done, workers', s.queues, part) {
      assert PartOk(env, s.done, s.workers, s.queues, part);
    }
  }

  lemma SetProcIsSameHome(s: Sys, pid: nat, p: P.Proc)
    requires pid in s.workers && (p.Alive() ==> s.workers[pid].proc.Alive())
    ensures SameHome(s.workers, SetProc(s, pid, p).workers)
  {
  }

  /** A step of a consumer that changes nothing but its mailbox, timers or backoff. */
  ghost predicate SameWork(p: P.Proc, p': P.Proc) {
    && P.Inv(p') && p'.Alive() == p.Alive() && p'.mode == p.mode && Held(p') == Held(p)
    && (p'.phase.Storing? ==> p'.phase == p.phase)
  }

  lemma SameWorkKeepsDelivery(env: Env, s: Sys, pid: nat, p: P.Proc)
    requires Delivery(env, s.done, s.workers, s.queues) && pid in s.workers && SameWork(s.workers[pid].proc, p)
    ensures Delivery(env, s.done, SetProc(s, pid, p).workers, s.queues)
  {
    var t := SetProc(s, pid, p);
    forall x | AliveIn(t.workers, x)
      ensures t.workers[x].queue in s.queues && WorkerOk(env, s.done, t.workers[x], s.queues[t.workers[x].queue])
    {
      assert AliveIn(s.workers, x);
    }
  }

  lemma SetProcKeepsProcs(env: Env, s: Sys, pid: nat, p: P.Proc)
    requires pid in s.workers && P.Inv(p) && p.mode == s.workers[pid].proc.mode
    requires Procs(env, s.workers) && Ids(s.queues, s.workers, s.mailbox, s.nextId)
    ensures var workers' := SetProc(s, pid, p).workers;
      Procs(env, workers') && Ids(s.queues, workers', s.mailbox, s.nextId)
  {
  }

  lemma SameWorkKeeps(env: Env, s: Sys, pid: nat, p: P.Proc)
    requires Structure(env, s) && Data(env, s) && pid in s.workers && SameWork(s.workers[pid].proc, p)
    ensures var t := SetProc(s, pid, p); Structure(env, t) && Data(env, t)
  {
    var t := SetProc(s, pid, p);
    SetProcIsSameHome(s, pid, p);
    SameHomeKeepsMap(s, t.workers);
    SameHomeKeepsPending(env, s, t.workers);
    SameWorkKeepsDelivery(env, s, pid, p);
    SetProcKeepsProcs(env, s, pid, p);
    hide Ids, Procs, Queues, ActiveOk, Tracked, Delivery, PendingOk, StoredOk, NowBelow, DroppedOk, PolledInLog,
      Stage, StopList, ForwardedOk, Requests;
  }

  lemma AskIsSameWork(p: P.Proc, tag: nat)
    requires P.Inv(p) && p.Alive()
    ensures var p' := P.Step(p, StopMail(tag)).0;
      SameWork(p, p') && p'.mailbox == p.mailbox + [StopMail(tag).mail]
  {
    P.StepKeepsInv(p, StopMail(tag));
  }

  /** The request just sent is the only one around, and no answer to it has come yet. */
  lemma AskKeepsRequests(s: Sys, e: Entry, p: P.Proc, rest: seq<Entry>)
    requires Requests(s.phase, s.workers, s.mailbox, s.nextId) && s.phase.Stopping? && AliveIn(s.workers, e.pid)
    requires forall m :: m in s.mailbox && m.Stopped? ==> m.tag < s.nextId
    requires p.mailbox == s.workers[e.pid].proc.mailbox + [StopMail(s.nextId).mail]
    ensures Requests(Waiting(e, s.nextId, rest, s.phase.why), SetProc(s, e.pid, p).workers, s.mailbox, s.nextId + 1)
  {
    var workers' := SetProc(s, e.pid, p).workers;
    assert forall pid, m :: AliveIn(s.workers, pid) && m in s.workers[pid].proc.mailbox ==> !P.IsStop(m);
    forall pid, m | AliveIn(workers', pid) && m in workers'[pid].proc.mailbox && P.IsStop(m)
      ensures pid == e.pid && m.triple.tag == s.nextId
    {
      assert AliveIn(s.workers, pid);
    }
  }

  lemma SameToStop(e: Entry, rest: seq<Entry>, tag: nat, why: Why)
    ensures forall x :: ToStop(Waiting(e, tag, rest, why), x) <==> ToStop(Stopping([e] + rest, why), x)
  {
  }

  lemma SameListsToStop(phase: Phase, phase': Phase, workers: map<nat, Worker>, active: map<TP, Entry>,
                        queues: map<nat, Queue>)
    requires (phase.Stopping? || phase.Waiting?) && forall x :: ToStop(phase', x) <==> ToStop(phase, x)
    requires StopList(phase, workers, active) && ForwardedOk(phase, active, queues)
    ensures StopList(phase', workers, active) && ForwardedOk(phase', active, queues)
  {
  }

  lemma AskKeepsControl(s: Sys, p: P.Proc)
    requires Control(s) && s.phase.Stopping? && s.phase.rest != [] && AliveIn(s.workers, s.phase.rest[0].pid)
    requires forall m :: m in s.mailbox && m.Stopped? ==> m.tag < s.nextId
    requires p.Alive() && p.mailbox == s.workers[s.phase.rest[0].pid].proc.mailbox + [StopMail(s.nextId).mail]
    ensures Control(Asked(s, s.phase.rest[0], s.phase.rest[1..], p))
  {
    hide StopList, ForwardedOk, Requests, SameHome, ToStop;
    var e, rest, why := s.phase.rest[0], s.phase.rest[1..], s.phase.why;
    var t := SetProc(s, e.pid, p);
    assert s.phase == Stopping([e] + rest, why);
    SameToStop(e, rest, s.nextId, why);
    SetProcIsSameHome(s, e.pid, p);
    SameHomeKeepsStopList(s, t.workers);
    SameListsToStop(s.phase, Waiting(e, s.nextId, rest, why), t.workers, s.active, s.queues);
    AskKeepsRequests(s, e, p, rest);
  }

  /** The group moves on; nothing becomes pending by it. */
  lemma PhaseChangeKeeps(env: Env, s: Sys, phase: Phase, mailbox: seq<Mail>, nextId: nat)
    requires Structure(env, s) && Data(env, s) && s.nextId <= nextId
    requires forall m :: m in mailbox ==> m in s.mailbox || m.Exit? || (m.Stopped? && m.tag < nextId)
    requires phase == s.phase || (!phase.Starting? && !Ending(s.phase)) || Ending(phase)
    ensures var t := s.(phase := phase, mailbox := mailbox, nextId := nextId); Structure(env, t) && Data(env, t)
  {
    assert forall part :: IsPending(phase, mailbox, part) ==> IsPending(s.phase, s.mailbox, part);
    assert PendingOk(env, s.done, phase, mailbox, s.workers, s.queues);
    assert Ids(s.queues, s.workers, mailbox, nextId);
    hide Ids, Procs, Queues, ActiveOk, Tracked, Delivery, PendingOk, StoredOk, NowBelow, DroppedOk, PolledInLog,
      Stage, StopList, ForwardedOk, Requests;
  }

  lemma ProcIsOk(env: Env, workers: map<nat, Worker>, pid: nat)
    requires Procs(env, workers) && pid in workers
    ensures P.Inv(workers[pid].proc)
  {
  }

  lemma TagsAreOld(s: Sys)
    requires Ids(s.queues, s.workers, s.mailbox, s.nextId)
    ensures forall m :: m in s.mailbox && m.Stopped? ==> m.tag < s.nextId
  {
  }

  lemma AskedKeeps(env: Env, s: Sys, e: Entry, rest: seq<Entry>, p: P.Proc)
    requires Inv(env, s) && s.phase.Stopping? && s.phase.rest == [e] + rest && AliveIn(s.workers, e.pid)
    requires SameWork(s.workers[e.pid].proc, p)
    requires p.mailbox == s.workers[e.pid].proc.mailbox + [StopMail(s.nextId).mail]
    ensures Inv(env, Asked(s, e, rest, p))
  {
    hide Ids, Procs, Queues, ActiveOk, Tracked, Delivery, PendingOk, StoredOk, NowBelow, DroppedOk, PolledInLog,
      Stage, StopList, ForwardedOk, Requests;
    TagsAreOld(s);
    SameWorkKeeps(env, s, e.pid, p);
    AskKeepsControl(s, p);
    PhaseChangeKeeps(env, SetProc(s, e.pid, p), Waiting(e, s.nextId, rest, s.phase.why), s.mailbox, s.nextId + 1);
  }

  lemma AskKeeps(env: Env, s: Sys)
    requires Inv(env, s) && s.phase.Stopping? && s.phase.rest != [] && AliveIn(s.workers, s.phase.rest[0].pid)
    ensures var e := s.phase.rest[0];
      Inv(env, Asked(s, e, s.phase.rest[1..], P.Step(s.workers[e.pid].proc, StopMail(s.nextId)).0))
  {
    hide Ids, Procs, Queues, ActiveOk, Tracked, Delivery, PendingOk, StoredOk, NowBelow, DroppedOk, PolledInLog,
      Stage, StopList, ForwardedOk, Requests;
    var e, rest := s.phase.rest[0], s.phase.rest[1..];
    assert s.phase.rest == [e] + rest;
    ProcIsOk(env, s.workers, e.pid);
    hide Inv, P.Step, P.Inv, SameWork;
    AskIsSameWork(s.workers[e.pid].proc, s.nextId);
    AskedKeeps(env, s, e, rest, P.Step(s.workers[e.pid].proc, StopMail(s.nextId)).0);
  }

  // ------------------------------------------------- a consumer that has stopped is let go

  ghost predicate OwnsNothingAlive(workers: map<nat, Worker>, queue: nat) {
    forall pid :: AliveIn(workers, pid) ==> workers[pid].queue != queue
  }

  lemma DeadQueueIsNobodys(env: Env, s: Sys, e: Entry)
    requires Structure(env, s) && Listed(s.workers, s.active, e) && !AliveIn(s.workers, e.pid)
    ensures OwnsNothingAlive(s.workers, e.queue) && e.queue in s.queues
  {
    var tp := s.workers[e.pid].tp;
    assert EntryOk(s.workers, s.queues, tp, e);
    forall pid | AliveIn(s.workers, pid) ensures s.workers[pid].queue != e.queue {
      assert EntryOk(s.workers, s.queues, s.workers[pid].tp, s.active[s.workers[pid].tp]);
    }
  }

  lemma ForwardKeepsData(env: Env, s: Sys, queue: nat)
    requires Data(env, s) && queue in s.queues && OwnsNothingAlive(s.workers, queue)
    requires forall part :: !IsPending(s.phase, s.mailbox, part)
    ensures Data(env, ForwardBack(s, queue))
  {
  }

  lemma ForwardKeepsStructure(env: Env, s: Sys, queue: nat)
    requires Structure(env, s)
    ensures Structure(env, ForwardBack(s, queue))
  {
  }

  /** While consumers are being stopped no partition is waiting to be started. */
  lemma NothingPendingNow(s: Sys)
    requires Stage(s) && (s.phase.Stopping? || s.phase.Waiting?)
    ensures forall part :: !IsPending(s.phase, s.mailbox, part)
  {
    if s.phase.why == Revoking { NoAssignWaiting(s.mailbox); }
  }

  /** `e` is the entry stop_consumers is at. */
  ghost predicate AtEntry(phase: Phase, e: Entry, rest: seq<Entry>) {
    (phase.Stopping? && phase.rest == [e] + rest) || (phase.Waiting? && phase.entry == e && phase.rest == rest)
  }

  /** The entry at hand is done with: its consumer is dead, its queue goes back. */
  lemma LetGoKeepsControl(s: Sys, e: Entry, rest: seq<Entry>)
    requires Control(s) && AtEntry(s.phase, e, rest) && !AliveIn(s.workers, e.pid) && e.queue in s.queues
    ensures Control(ForwardBack(s, e.queue).(phase := Stopping(rest, s.phase.why)))
  {
    var phase := Stopping(rest, s.phase.why);
    assert forall x :: ToStop(s.phase, x) <==> x == e || ToStop(phase, x);
    assert StopList(phase, s.workers, s.active);
    assert ForwardedOk(phase, s.active, ForwardBack(s, e.queue).queues);
    forall pid, m | AliveIn(s.workers, pid) && m in s.workers[pid].proc.mailbox ensures !P.IsStop(m) {
    }
    assert Requests(phase, s.workers, s.mailbox, s.nextId);
    hide StopList, ForwardedOk, Requests, ToStop;
  }

  lemma EntryIsListed(s: Sys, e: Entry, rest: seq<Entry>)
    requires StopList(s.phase, s.workers, s.active) && AtEntry(s.phase, e, rest)
    ensures Listed(s.workers, s.active, e)
  {
    assert ToStop(s.phase, e);
  }

  lemma LetGoKeeps(env: Env, s: Sys, e: Entry, rest: seq<Entry>)
    requires Inv(env, s) && AtEntry(s.phase, e, rest) && !AliveIn(s.workers, e.pid)
    ensures Inv(env, ForwardBack(s, e.queue).(phase := Stopping(rest, s.phase.why)))
  {
    hide Ids, Procs, Queues, ActiveOk, Tracked, Delivery, PendingOk, StoredOk, NowBelow, DroppedOk, PolledInLog,
      Stage, StopList, ForwardedOk, Requests;
    EntryIsListed(s, e, rest);
    NothingPendingNow(s);
    DeadQueueIsNobodys(env, s, e);
    LetGoKeepsControl(s, e, rest);
    ForwardKeepsStructure(env, s, e.queue);
    ForwardKeepsData(env, s, e.queue);
    PhaseChangeKeeps(env, ForwardBack(s, e.queue), Stopping(rest, s.phase.why), s.mailbox, s.nextId);
  }

  lemma StopNextKeeps(env: Env, s: Sys)
    requires Inv(env, s) && s.phase.Stopping?
    ensures Inv(env, OnStopNext(s))
  {
    hide Inv, P.Step, Asked;
    if s.phase.rest == [] {
      FinishKeeps(env, s);
    } else if AliveIn(s.workers, s.phase.rest[0].pid) {
      AskKeeps(env, s);
    } else {
      assert s.phase.rest == [s.phase.rest[0]] + s.phase.rest[1..];
      LetGoKeeps(env, s, s.phase.rest[0], s.phase.rest[1..]);
    }
  }

  lemma {:induction false} RebalancesWithout(mailbox: seq<Mail>, i: nat)
    requires i < |mailbox| && !mailbox[i].Assign? && !mailbox[i].Revoke?
    ensures Rebalances(mailbox[..i] + mailbox[i + 1..]) == Rebalances(mailbox)
  {
    RebalancesAppend(mailbox[..i], mailbox[i + 1..]);
    RebalancesAppend([mailbox[i]], mailbox[i + 1..]);
    RebalancesAppend(mailbox[..i], [mailbox[i]] + mailbox[i + 1..]);
    OneRebalance(mailbox[i]);
    assert mailbox == mailbox[..i] + ([mailbox[i]] + mailbox[i + 1..]);
  }

  lemma QuietMailKeepsStage(s: Sys, mailbox: seq<Mail>)
    requires Stage(s) && !s.phase.Down? && Rebalances(mailbox) == Rebalances(s.mailbox)
    requires forall m :: m in mailbox ==> m in s.mailbox || m.Exit? || m.Stopped?
    ensures Stage(s.(mailbox := mailbox))
  {
  }

  lemma QuietMailKeepsRequests(s: Sys, mailbox: seq<Mail>)
    requires Requests(s.phase, s.workers, s.mailbox, s.nextId)
    requires forall m :: m in mailbox ==> m in s.mailbox || m.Exit?
    ensures Requests(s.phase, s.workers, mailbox, s.nextId)
  {
  }

  /** Mail that says nothing about partitions comes or goes. */
  lemma QuietMailKeeps(env: Env, s: Sys, mailbox: seq<Mail>)
    requires Inv(env, s) && !s.phase.Down? && Rebalances(mailbox) == Rebalances(s.mailbox)
    requires forall m :: m in mailbox ==> m in s.mailbox || m.Exit?
    ensures Inv(env, s.(mailbox := mailbox))
  {
    hide Ids, Procs, Queues, ActiveOk, Tracked, Delivery, PendingOk, StoredOk, NowBelow, DroppedOk, PolledInLog,
      Stage, StopList, ForwardedOk, Requests;
    QuietMailKeepsStage(s, mailbox);
    QuietMailKeepsRequests(s, mailbox);
    PhaseChangeKeeps(env, s, s.phase, mailbox, s.nextId);
  }

  lemma AnsweredIsDead(s: Sys, i: nat)
    requires Requests(s.phase, s.workers, s.mailbox, s.nextId)
    requires s.phase.Waiting? && i < |s.mailbox| && s.mailbox[i] == Stopped(s.phase.tag)
    ensures !AliveIn(s.workers, s.phase.entry.pid)
  {
    assert s.mailbox[i] in s.mailbox;
  }

  lemma HearStoppedKeeps(env: Env, s: Sys, i: nat)
    requires Inv(env, s) && Can(env, s, HearStopped(i))
    ensures Inv(env, OnHearStopped(s, i))
  {
    hide Ids, Procs, Queues, ActiveOk, Tracked, Delivery, PendingOk, StoredOk, NowBelow, DroppedOk, PolledInLog,
      Stage, StopList, ForwardedOk, Requests;
    var rest := s.mailbox[..i] + s.mailbox[i + 1..];
    AnsweredIsDead(s, i);
    RebalancesWithout(s.mailbox, i);
    QuietMailKeeps(env, s, rest);
    LetGoKeeps(env, s.(mailbox := rest), s.phase.entry, s.phase.rest);
  }

  lemma KilledIsOk(p: P.Proc)
    requires P.Inv(p)
    ensures var p' := P.Die(p, false); P.Inv(p') && !p'.Alive() && p'.mode == p.mode && p'.mailbox == []
  {
    assert P.Waiting([]) == [];
  }

  lemma DeadKeepsDelivery(env: Env, s: Sys, pid: nat, p: P.Proc)
    requires Delivery(env, s.done, s.workers, s.queues) && pid in s.workers && !p.Alive()
    ensures Delivery(env, s.done, SetProc(s, pid, p).workers, s.queues)
  {
    var workers' := SetProc(s, pid, p).workers;
    forall x | AliveIn(workers', x) ensures AliveIn(s.workers, x) && workers'[x] == s.workers[x] {
    }
  }

  lemma DeadKeepsRequests(s: Sys, pid: nat, p: P.Proc)
    requires Requests(s.phase, s.workers, s.mailbox, s.nextId) && pid in s.workers && !p.Alive()
    ensures Requests(s.phase, SetProc(s, pid, p).workers, s.mailbox, s.nextId)
  {
    var workers' := SetProc(s, pid, p).workers;
    forall x | AliveIn(workers', x) ensures AliveIn(s.workers, x) && workers'[x] == s.workers[x] {
    }
  }

  lemma StageFrame(s: Sys, pid: nat, p: P.Proc)
    requires Stage(s) && pid in s.workers
    ensures Stage(SetProc(s, pid, p))
  {
  }

  lemma KillKeeps(env: Env, s: Sys, pid: nat)
    requires Inv(env, s) && AliveIn(s.workers, pid)
    ensures Inv(env, SetProc(s, pid, P.Die(s.workers[pid].proc, false)))
  {
    hide Ids, Procs, Queues, ActiveOk, Tracked, Delivery, PendingOk, StoredOk, NowBelow, DroppedOk, PolledInLog,
      Stage, StopList, ForwardedOk, Requests;
    var p := P.Die(s.workers[pid].proc, false);
    var t := SetProc(s, pid, p);
    ProcIsOk(env, s.workers, pid);
    KilledIsOk(s.workers[pid].proc);
    DeadKeepsDelivery(env, s, pid, p);
    DeadKeepsRequests(s, pid, p);
    StageFrame(s, pid, p);
    SetProcIsSameHome(s, pid, p);
    SetProcKeepsProcs(env, s, pid, p);
    SameHomeKeepsMap(s, t.workers);
    SameHomeKeepsPending(env, s, t.workers);
    SameHomeKeepsStopList(s, t.workers);
  }

  lemma TimeoutKeeps(env: Env, s: Sys)
    requires Inv(env, s) && s.phase.Waiting?
    ensures Inv(env, OnTimeout(s))
  {
    var e := s.phase.entry;
    if AliveIn(s.workers, e.pid) {
      hide Inv;
      KillKeeps(env, s, e.pid);
      var t := SetProc(s, e.pid, P.Die(s.workers[e.pid].proc, false));
      var mailbox := s.mailbox + [Exit(e.pid, false)];
      RebalancesAppend(s.mailbox, [Exit(e.pid, false)]);
      OneRebalance(Exit(e.pid, false));
      QuietMailKeeps(env, t, mailbox);
      LetGoKeeps(env, t.(mailbox := mailbox), e, s.phase.rest);
    } else {
      hide Inv;
      LetGoKeeps(env, s, e, s.phase.rest);
    }
  }

  // ----------------------------------------------------------------- a consumer's step

  /** What a consumer's step tells the group concerns itself alone. */
  lemma {:induction false} MailFromIsOwn(pid: nat, outs: seq<P.Out>)
    ensures forall m :: m in MailFrom(pid, outs) ==>
      m.Exit? || (m.Stopped? && exists o :: o in outs && o.SendStopped? && o.tag == m.tag)
  {
    if outs == [] {
    } else {
      MailFromIsOwn(pid, outs[1..]);
      forall m | m in MailFrom(pid, outs)
        ensures m.Exit? || (m.Stopped? && exists o :: o in outs && o.SendStopped? && o.tag == m.tag)
      {
        if m in MailOf(pid, outs[0]) {
          assert outs[0] in outs;
        } else {
          assert m in MailFrom(pid, outs[1..]);
        }
      }
    }
  }

  lemma MailFromIsQuiet(mailbox: seq<Mail>, pid: nat, outs: seq<P.Out>)
    ensures Rebalances(mailbox + MailFrom(pid, outs)) == Rebalances(mailbox)
  {
    MailFromIsOwn(pid, outs);
    NoRebalances(MailFrom(pid, outs));
    RebalancesAppend(mailbox, MailFrom(pid, outs));
  }

  /** The queue a consumer leaves behind: a poll takes from its front. */
  function QueueAfter(env: Env, w: Worker, e: P.Event, q: Queue): Queue {
    if IsPoll(w.proc, e) then q.(events := q.events[EventsTaken(q.events, env.maxBatch(w.tp))..]) else q
  }

  /** The heart of delivery: whatever a live consumer does next, the messages it holds remain
      the ones right before its queue's head, everything before them is settled, and what it
      stores is safe. */
  ghost predicate StepDelivers(env: Env, done: set<Rec>, w: Worker, e: P.Event, q: Queue)
    requires P.Enabled(w.proc, e)
  {
    var (p, outs) := P.Step(w.proc, e);
    var done', q' := done + Approved(w, e), QueueAfter(env, w, e, q);
    && QueueOk(env, q') && Head(q) <= Head(q')
    && (p.Alive() ==> WorkerOk(env, done', w.(proc := p), q'))
    && (StoreOut(outs).Some? ==>
          var o := StoreOut(outs).value;
          o >= 0 && StoredSafe(env, done', w.tp, o) && AllAbove(env, q', o))
  }

  lemma PollDelivers(env: Env, done: set<Rec>, w: Worker, e: P.Event, q: Queue)
    requires P.Inv(w.proc) && P.Enabled(w.proc, e) && w.proc.Alive() && WorkerOk(env, done, w, q)
    requires IsPoll(w.proc, e) && e.polled == PollResult(q.events, env.maxBatch(w.tp))
    ensures StepDelivers(env, done, w, e, q)
  {
    assert P.Step(w.proc, e).0.Alive();
    HeldAfter(w.proc, e);
    PollKeepsCursor(env, done, q, env.maxBatch(w.tp));
    assert done + {} == done;
  }

  lemma StoreDelivers(env: Env, done: set<Rec>, w: Worker, e: P.Event, q: Queue)
    requires LogsOk(env)
    requires P.Inv(w.proc) && P.Enabled(w.proc, e) && WorkerOk(env, done, w, q) && e == P.Store(true)
    ensures StepDelivers(env, done, w, e, q)
  {
    assert done + {} == done;
    HeldAfter(w.proc, e);
    var held := Held(w.proc);
    if w.proc.mode == P.Batch {
      StoreIsSafe(env, done, held, q, |held| - 1);
      StoreAllKeepsCursor(env, done, held, q);
    } else {
      assert held[..1] == [held[0]];
      StoreIsSafe(env, done, held, q, 0);
      StoreOneKeepsCursor(env, done, held, q);
    }
  }

  lemma ReturnDelivers(env: Env, done: set<Rec>, w: Worker, e: P.Event, q: Queue)
    requires P.Inv(w.proc) && P.Enabled(w.proc, e) && WorkerOk(env, done, w, q) && e.Return?
    ensures StepDelivers(env, done, w, e, q)
  {
    HeldAfter(w.proc, e);
    SettledGrows(env, done, Approved(w, e), Held(w.proc), q);
    var p := w.proc;
    assert |p.phase.rest| >= 1 && p.phase.rest[..1] == [p.phase.rest[0]];
  }

  lemma OtherDelivers(env: Env, done: set<Rec>, w: Worker, e: P.Event, q: Queue)
    requires P.Inv(w.proc) && P.Enabled(w.proc, e) && w.proc.Alive() && WorkerOk(env, done, w, q)
    requires !IsPoll(w.proc, e) && !e.Return? && e != P.Store(true)
    ensures StepDelivers(env, done, w, e, q)
  {
    assert done + {} == done;
    var (p, outs) := P.Step(w.proc, e);
    if p.Alive() {
      HeldAfter(w.proc, e);
    } else {
      P.StopIsKeptOrAnswered(w.proc, e);
    }
  }

  lemma WorkerDelivers(env: Env, done: set<Rec>, w: Worker, e: P.Event, q: Queue)
    requires LogsOk(env)
    requires P.Inv(w.proc) && P.Enabled(w.proc, e) && w.proc.Alive() && WorkerOk(env, done, w, q)
    requires IsPoll(w.proc, e) ==> e.polled == PollResult(q.events, env.maxBatch(w.tp))
    ensures StepDelivers(env, done, w, e, q)
  {
    hide StepDelivers, WorkerOk, P.Inv, P.Step;
    if IsPoll(w.proc, e) {
      PollDelivers(env, done, w, e, q);
    } else if e == P.Store(true) {
      StoreDelivers(env, done, w, e, q);
    } else if e.Return? {
      ReturnDelivers(env, done, w, e, q);
    } else {
      OtherDelivers(env, done, w, e, q);
    }
  }

  lemma DeadStepIsNothing(env: Env, s: Sys, pid: nat, e: P.Event)
    requires pid in s.workers && !AliveIn(s.workers, pid) && WorkerCan(env, s, s.workers[pid], e)
    ensures OnWorker(env, s, pid, e) == s
  {
    var w := s.workers[pid];
    assert e.Deliver? && P.Step(w.proc, e) == (w.proc, []);
    assert MailFrom(pid, []) == [] && s.mailbox + [] == s.mailbox && s.done + {} == s.done;
    assert s.workers[pid := w] == s.workers;
  }

  /** The parts of the state a live consumer's step touches. */
  lemma WorkerShape(env: Env, s: Sys, pid: nat, e: P.Event)
    requires AliveIn(s.workers, pid) && WorkerCan(env, s, s.workers[pid], e) && s.workers[pid].queue in s.queues
    ensures var (w, s') := (s.workers[pid], OnWorker(env, s, pid, e));
      && s'.workers == SetProc(s, pid, P.Step(w.proc, e).0).workers
      && s'.queues == s.queues[w.queue := QueueAfter(env, w, e, s.queues[w.queue])]
      && s' == s.(workers := s'.workers, queues := s'.queues, polled := s'.polled, done := s.done + Approved(w, e),
                  stored := s'.stored, storedNow := s'.storedNow,
                  mailbox := s.mailbox + MailFrom(pid, P.Step(w.proc, e).1))
  {
    hide P.Step;
    var w := s.workers[pid];
    assert s.queues[w.queue := s.queues[w.queue]] == s.queues;
  }

  lemma StepKeepsMode(p: P.Proc, e: P.Event)
    requires P.Enabled(p, e)
    ensures P.Step(p, e).0.mode == p.mode && (P.Step(p, e).0.Alive() ==> p.Alive())
  {
  }

  lemma ReplacedQueue(env: Env, s: Sys, id: nat, q: Queue, mailbox: seq<Mail>)
    requires Ids(s.queues, s.workers, s.mailbox, s.nextId) && Queues(env, s.queues, Outstanding(s))
    requires ActiveOk(s.active, s.workers, s.queues) && Replaces(env, s.queues, id, q)
    requires forall m :: m in mailbox && m.Stopped? ==> m.tag < s.nextId
    ensures var queues' := s.queues[id := q];
      Ids(queues', s.workers, mailbox, s.nextId) && Queues(env, queues', Outstanding(s)) &&
      ActiveOk(s.active, s.workers, queues')
  {
  }

  lemma WorkerKeepsStructure(env: Env, s: Sys, pid: nat, p: P.Proc, q: Queue, mailbox: seq<Mail>)
    requires Structure(env, s) && pid in s.workers && Replaces(env, s.queues, s.workers[pid].queue, q)
    requires P.Inv(p) && p.mode == s.workers[pid].proc.mode && (p.Alive() ==> s.workers[pid].proc.Alive())
    requires forall m :: m in mailbox && m.Stopped? ==> m.tag < s.nextId
    ensures Structure(env, SetProc(s, pid, p).(queues := s.queues[s.workers[pid].queue := q], mailbox := mailbox))
  {
    hide Ids, Procs, Queues, ActiveOk, Tracked, Delivery, PendingOk, StoredOk, NowBelow, DroppedOk, PolledInLog,
      Stage, StopList, ForwardedOk, Requests;
    var t := SetProc(s, pid, p);
    SetProcIsSameHome(s, pid, p);
    SameHomeKeepsMap(s, t.workers);
    SetProcKeepsProcs(env, s, pid, p);
    ReplacedQueue(env, SetProc(s, pid, p), s.workers[pid].queue, q, mailbox);
  }

  /** Different live consumers have different queues. */
  lemma QueuesAreOwn(env: Env, s: Sys, a: nat, b: nat)
    requires Structure(env, s) && AliveIn(s.workers, a) && AliveIn(s.workers, b) && a != b
    ensures s.workers[a].queue != s.workers[b].queue
  {
    assert EntryOk(s.workers, s.queues, s.workers[a].tp, s.active[s.workers[a].tp]);
    assert EntryOk(s.workers, s.queues, s.workers[b].tp, s.active[s.workers[b].tp]);
  }

  lemma MoreDoneKeepsWorker(env: Env, done: set<Rec>, more: set<Rec>, w: Worker, q: Queue)
    requires WorkerOk(env, done, w, q)
    ensures WorkerOk(env, done + more, w, q)
  {
  }

  lemma WorkerKeepsDelivery(env: Env, s: Sys, pid: nat, p: P.Proc, q: Queue, more: set<Rec>)
    requires Structure(env, s) && Delivery(env, s.done, s.workers, s.queues) && AliveIn(s.workers, pid)
    requires p.Alive() ==> WorkerOk(env, s.done + more, s.workers[pid].(proc := p), q)
    ensures Delivery(env, s.done + more, SetProc(s, pid, p).workers, s.queues[s.workers[pid].queue := q])
  {
    hide WorkerOk, Structure;
    var workers', queues' := SetProc(s, pid, p).workers, s.queues[s.workers[pid].queue := q];
    forall x | AliveIn(workers', x)
      ensures workers'[x].queue in queues' && WorkerOk(env, s.done + more, workers'[x], queues'[workers'[x].queue])
    {
      if x != pid {
        assert AliveIn(s.workers, x);
        QueuesAreOwn(env, s, x, pid);
        MoreDoneKeepsWorker(env, s.done, more, s.workers[x], s.queues[s.workers[x].queue]);
      }
    }
  }

  lemma WorkerKeepsPending(env: Env, s: Sys, pid: nat, p: P.Proc, q: Queue, more: set<Rec>, mailbox: seq<Mail>)
    requires PendingOk(env, s.done, s.phase, s.mailbox, s.workers, s.queues) && pid in s.workers
    requires forall m :: m in mailbox && m.Assign? ==> m in s.mailbox
    ensures PendingOk(env, s.done + more, s.phase, mailbox, SetProc(s, pid, p).workers,
      s.queues[s.workers[pid].queue := q])
  {
    PendingFrame(s.phase, s.mailbox, s.phase, mailbox);
    forall part | IsPending(s.phase, mailbox, part)
      ensures PartOk(env, s.done + more, SetProc(s, pid, p).workers, s.queues[s.workers[pid].queue := q], part)
    {
      assert PartOk(env, s.done, s.workers, s.queues, part);
      SettledGrows(env, s.done, more, [], s.queues[part.queue]);
    }
  }

  lemma WorkerKeepsStored(env: Env, done: set<Rec>, more: set<Rec>, stored: map<TP, int>, tp: TP, store: Option<int>)
    requires StoredOk(env, done, stored)
    requires store.Some? ==> StoredSafe(env, done + more, tp, store.value)
    ensures StoredOk(env, done + more, if store.Some? then stored[tp := store.value] else stored)
  {
    var stored' := if store.Some? then stored[tp := store.value] else stored;
    forall x ensures StoredSafe(env, done + more, x, StoredOf(env, stored', x)) {
      assert StoredSafe(env, done, x, StoredOf(env, stored, x));
    }
  }

  lemma WorkerKeepsHistory(env: Env, s: Sys, id: nat, q: Queue, store: Option<int>)
    requires NowBelow(env, s.storedNow, s.queues) && DroppedOk(s.dropped, s.storedNow, s.queues)
    requires Replaces(env, s.queues, id, q) && !s.queues[id].forwarded && !q.forwarded && Head(s.queues[id]) <= Head(q)
    requires forall a, b :: a in s.queues && b in s.queues && s.queues[a].tp == s.queues[b].tp ==> a == b
    requires store.Some? ==> store.value >= 0 && AllAbove(env, q, store.value)
    ensures var storedNow' := if store.Some? then s.storedNow + {Rec(q.tp, store.value)} else s.storedNow;
      NowBelow(env, storedNow', s.queues[id := q]) && DroppedOk(s.dropped, storedNow', s.queues[id := q])
  {
    var queues' := s.queues[id := q];
    var storedNow' := if store.Some? then s.storedNow + {Rec(q.tp, store.value)} else s.storedNow;
    forall r, x | r in storedNow' && x in queues' && queues'[x].tp == r.tp ensures AllAbove(env, queues'[x], r.offset) {
      if r in s.storedNow {
        assert AllAbove(env, s.queues[x], r.offset);
      }
    }
  }

  lemma PolledMessagesAreLogged(env: Env, q: Queue, maxBatch: nat)
    requires QueueOk(env, q)
    ensures forall x :: x in PollResult(q.events, maxBatch).messages ==> x in env.log(q.tp)
  {
    PollSplitsQueue(q.events, maxBatch);
    forall x | x in PollResult(q.events, maxBatch).messages ensures x in env.log(q.tp) {
      assert x in Flatten(q.events);
    }
  }

  lemma WorkerKeepsRequests(env: Env, s: Sys, pid: nat, e: P.Event)
    requires Requests(s.phase, s.workers, s.mailbox, s.nextId) && AliveIn(s.workers, pid) &&
      WorkerCan(env, s, s.workers[pid], e)
    ensures var (p, outs) := P.Step(s.workers[pid].proc, e);
      Requests(s.phase, SetProc(s, pid, p).workers, s.mailbox + MailFrom(pid, outs), s.nextId)
    ensures forall m :: m in MailFrom(pid, P.Step(s.workers[pid].proc, e).1) && m.Stopped? ==> m.tag < s.nextId
  {
    hide P.Step;
    var (p, outs) := P.Step(s.workers[pid].proc, e);
    var workers' := SetProc(s, pid, p).workers;
    StepKeepsMode(s.workers[pid].proc, e);
    P.StopIsKeptOrAnswered(s.workers[pid].proc, e);
    MailFromIsOwn(pid, outs);
    forall x, m | AliveIn(workers', x) && m in workers'[x].proc.mailbox && P.IsStop(m)
      ensures s.phase.Waiting? && x == s.phase.entry.pid && m.triple.tag == s.phase.tag
    {
      if x == pid { P.NewStopWasDelivered(s.workers[pid].proc, e, m); }
      assert AliveIn(s.workers, x) && m in s.workers[x].proc.mailbox;
    }
  }

  lemma ForwardedFrame(phase: Phase, active: map<TP, Entry>, queues: map<nat, Queue>, id: nat, q: Queue)
    requires ForwardedOk(phase, active, queues) && id in queues && q.forwarded == queues[id].forwarded
    ensures ForwardedOk(phase, active, queues[id := q])
  {
  }

  lemma WorkerKeepsControl(env: Env, s: Sys, pid: nat, e: P.Event, q: Queue, t: Sys)
    requires Control(s) && AliveIn(s.workers, pid) && WorkerCan(env, s, s.workers[pid], e) && !s.phase.Down?
    requires s.workers[pid].queue in s.queues && q.forwarded == s.queues[s.workers[pid].queue].forwarded
    requires var (p, outs) := P.Step(s.workers[pid].proc, e);
      && t.workers == SetProc(s, pid, p).workers && t.queues == s.queues[s.workers[pid].queue := q]
      && t.mailbox == s.mailbox + MailFrom(pid, outs)
      && t == s.(workers := t.workers, queues := t.queues, polled := t.polled, done := t.done,
                 stored := t.stored, storedNow := t.storedNow, mailbox := t.mailbox)
    ensures Control(t)
  {
    hide P.Step, Requests, StopList, ForwardedOk;
    var (p, outs) := P.Step(s.workers[pid].proc, e);
    StepKeepsMode(s.workers[pid].proc, e);
    SetProcIsSameHome(s, pid, p);
    SameHomeKeepsStopList(s, t.workers);
    ForwardedFrame(s.phase, s.active, s.queues, s.workers[pid].queue, q);
    WorkerKeepsRequests(env, s, pid, e);
    MailFromIsQuiet(s.mailbox, pid, outs);
    MailFromIsOwn(pid, outs);
    QuietMailKeepsStage(s, t.mailbox);
    hide Rebalances;
  }

  lemma WorkerIsOk(env: Env, s: Sys, pid: nat)
    requires Structure(env, s) && Data(env, s) && AliveIn(s.workers, pid)
    ensures var w := s.workers[pid];
      && P.Inv(w.proc) && w.queue in s.queues && WorkerOk(env, s.done, w, s.queues[w.queue])
      && QueueOk(env, s.queues[w.queue]) && s.queues[w.queue].tp == w.tp && !s.queues[w.queue].forwarded
  {
  }

  lemma WorkerNotDown(env: Env, s: Sys, pid: nat)
    requires Stage(s) && pid in s.workers && s.workers[pid].queue in s.queues
    ensures !s.phase.Down?
  {
  }

  lemma WorkerKeepsData(env: Env, s: Sys, pid: nat, e: P.Event)
    requires LogsOk(env) && Structure(env, s) && Data(env, s)
    requires AliveIn(s.workers, pid) && WorkerCan(env, s, s.workers[pid], e)
    ensures Data(env, OnWorker(env, s, pid, e))
  {
    hide Ids, Procs, Queues, ActiveOk, Tracked, Delivery, PendingOk, StoredOk, NowBelow, DroppedOk, PolledInLog,
      P.Step, P.Inv, WorkerOk;
    WorkerIsOk(env, s, pid);
    var w := s.workers[pid];
    var (p, outs) := P.Step(w.proc, e);
    var q, more, s' := s.queues[w.queue], Approved(w, e), OnWorker(env, s, pid, e);
    var q' := QueueAfter(env, w, e, q);
    WorkerDelivers(env, s.done, w, e, q);
    WorkerShape(env, s, pid, e);
    WorkerKeepsDelivery(env, s, pid, p, q', more);
    MailFromIsOwn(pid, outs);
    WorkerKeepsPending(env, s, pid, p, q', more, s'.mailbox);
    WorkerKeepsStored(env, s.done, more, s.stored, w.tp, StoreOut(outs));
    WorkerKeepsHistoryOf(env, s, w, q', StoreOut(outs));
    PolledMessagesAreLogged(env, q, env.maxBatch(w.tp));
    MorePolled(env, s.polled, w.tp, PollResult(q.events, env.maxBatch(w.tp)).messages);
  }

  lemma MorePolled(env: Env, polled: set<Rec>, tp: TP, more: seq<Offset>)
    requires PolledInLog(env, polled) && forall x :: x in more ==> x in env.log(tp)
    ensures PolledInLog(env, polled + Recs(tp, more))
  {
  }

  lemma WorkerKeepsHistoryOf(env: Env, s: Sys, w: Worker, q: Queue, store: Option<int>)
    requires Structure(env, s) && Data(env, s) && w.queue in s.queues && WorkerOk(env, s.done, w, s.queues[w.queue])
    requires QueueOk(env, q) && q.tp == w.tp && !q.forwarded && Head(s.queues[w.queue]) <= Head(q)
    requires store.Some? ==> store.value >= 0 && AllAbove(env, q, store.value)
    ensures var storedNow' := if store.Some? then s.storedNow + {Rec(w.tp, store.value)} else s.storedNow;
      NowBelow(env, storedNow', s.queues[w.queue := q]) && DroppedOk(s.dropped, storedNow', s.queues[w.queue := q])
  {
    WorkerKeepsHistory(env, s, w.queue, q, store);
    hide NowBelow, DroppedOk;
  }

  lemma WorkerKeeps(env: Env, s: Sys, pid: nat, e: P.Event)
    requires LogsOk(env) && Inv(env, s) && pid in s.workers && WorkerCan(env, s, s.workers[pid], e)
    ensures Inv(env, OnWorker(env, s, pid, e))
  {
    hide Ids, Procs, Queues, ActiveOk, Tracked, Delivery, PendingOk, StoredOk, NowBelow, DroppedOk, PolledInLog,
      Stage, StopList, ForwardedOk, Requests, P.Step, P.Inv, WorkerOk, QueueOk;
    if !AliveIn(s.workers, pid) {
      DeadStepIsNothing(env, s, pid, e);
    } else {
      var w := s.workers[pid];
      var p, outs := LiveStep(env, s, pid, e);
      var q, s' := s.queues[w.queue], OnWorker(env, s, pid, e);
      var q' := QueueAfter(env, w, e, q);
      WorkerKeepsStructure(env, s, pid, p, q', s'.mailbox);
      WorkerKeepsData(env, s, pid, e);
      WorkerKeepsControl(env, s, pid, e, q', s');
    }
  }

  /** The facts about a live consumer's step that its neighbours need. */
  lemma LiveStep(env: Env, s: Sys, pid: nat, e: P.Event) returns (p: P.Proc, outs: seq<P.Out>)
    requires LogsOk(env) && Inv(env, s) && AliveIn(s.workers, pid) && WorkerCan(env, s, s.workers[pid], e)
    ensures (p, outs) == P.Step(s.workers[pid].proc, e)
    ensures P.Inv(p) && p.mode == s.workers[pid].proc.mode && !s.phase.Down?
    ensures var (w, s') := (s.workers[pid], OnWorker(env, s, pid, e));
      && w.queue in s.queues
      && var q := QueueAfter(env, w, e, s.queues[w.queue]);
      && Replaces(env, s.queues, w.queue, q) && q.forwarded == s.queues[w.queue].forwarded
      && s'.workers == SetProc(s, pid, p).workers && s'.queues == s.queues[w.queue := q]
      && s'.mailbox == s.mailbox + MailFrom(pid, outs)
      && s' == s.(workers := s'.workers, queues := s'.queues, polled := s'.polled, done := s'.done,
                  stored := s'.stored, storedNow := s'.storedNow, mailbox := s'.mailbox)
    ensures forall m :: m in s.mailbox + MailFrom(pid, outs) && m.Stopped? ==> m.tag < s.nextId
  {
    hide Ids, Procs, Queues, ActiveOk, Tracked, Delivery, PendingOk, StoredOk, NowBelow, DroppedOk, PolledInLog,
      Stage, StopList, ForwardedOk, Requests, P.Step, P.Inv, WorkerOk;
    var w := s.workers[pid];
    p, outs := P.Step(w.proc, e).0, P.Step(w.proc, e).1;
    WorkerIsOk(env, s, pid);
    P.StepKeepsInv(w.proc, e);
    StepKeepsMode(w.proc, e);
    WorkerNotDown(env, s, pid);
    WorkerShape(env, s, pid, e);
    WorkerDelivers(env, s.done, w, e, s.queues[w.queue]);
    WorkerKeepsRequests(env, s, pid, e);
    TagsAreOld(s);
  }

  // --------------------------------------------------------------------------- every step

  lemma TakeMailKeeps(env: Env, s: Sys, order: seq<Entry>)
    requires Inv(env, s) && Can(env, s, TakeMail(order))
    ensures Inv(env, OnTake(s, order))
  {
    hide Inv, OnTake;
    match s.mailbox[0]
    case Assign(_) => TakeAssignKeeps(env, s, order);
    case Revoke(_) => TakeRevokeKeeps(env, s, order);
    case _ => TakeOtherKeeps(env, s, order);
  }

  /** Theorem. Every step the code and its environment can take keeps the invariant. */
  lemma StepKeepsInv(env: Env, s: Sys, a: Action)
    requires LogsOk(env) && Inv(env, s) && Can(env, s, a) && EnvAllows(env, s, a)
    ensures Inv(env, Apply(env, s, a))
  {
    hide Inv, OnAssign, OnRevoke, OnTake, OnStart, OnStopNext, OnHearStopped, OnTimeout, OnWorker, WorkerCan;
    match a
    case AssignCallback(parts, starts) => AssignKeeps(env, s, parts, starts);
    case RevokeCallback(tps) => RevokeKeeps(env, s, tps);
    case Fetch(q, n) => FetchKeeps(env, s, q, n);
    case Drain(q) => DrainKeeps(env, s, q);
    case TakeMail(order) => TakeMailKeeps(env, s, order);
    case StartNext(cb) => StartKeeps(env, s, cb);
    case StopNext => StopNextKeeps(env, s);
    case HearStopped(i) => HearStoppedKeeps(env, s, i);
    case StopTimesOut => TimeoutKeeps(env, s);
    case Shutdown(order) => ShutdownKeeps(env, s, order);
    case WorkerEvent(pid, e) => WorkerKeeps(env, s, pid, e);
    case Restart => RestartKeeps(env, s);
  }

  lemma {:induction false} RunKeepsInv(env: Env, s: Sys, actions: seq<Action>)
    requires LogsOk(env) && Inv(env, s) && IsRun(env, s, actions)
    ensures Inv(env, After(env, s, actions))
    decreases |actions|
  {
    hide Inv, Apply, Can, EnvAllows;
    if actions == [] {
    } else {
      StepKeepsInv(env, s, actions[0]);
      RunKeepsInv(env, Apply(env, s, actions[0]), actions[1..]);
    }
  }
}
