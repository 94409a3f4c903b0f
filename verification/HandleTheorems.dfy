/**
  What holds of handles, queues and the dispatcher in every run.
 */
module HandleTheorems {
  import opened QueueManager
  import opened HandleLifetime
  import opened HandleSteps

  ghost predicate IsRun(s: Sys, actions: seq<Action>)
    decreases |actions|
  {
    actions == [] || (Can(s, actions[0]) && IsRun(Apply(s, actions[0]), actions[1..]))
  }

  ghost function After(s: Sys, actions: seq<Action>): Sys
    requires IsRun(s, actions)
    decreases |actions|
  {
    if actions == [] then s else After(Apply(s, actions[0]), actions[1..])
  }

  ghost predicate Reachable(s: Sys) {
    exists actions :: IsRun(Init(), actions) && s == After(Init(), actions)
  }

  lemma {:induction false} RunKeepsInv(s: Sys, actions: seq<Action>)
    requires Inv(s) && IsRun(s, actions)
    ensures Inv(After(s, actions))
    decreases |actions|
  {
    hide Inv, Apply, Can;
    if actions == [] {
    } else {
      StepKeepsInv(s, actions[0]);
      RunKeepsInv(Apply(s, actions[0]), actions[1..]);
    }
  }

  lemma ReachableInv(s: Sys)
    requires Reachable(s)
    ensures Inv(s)
  {
    hide Inv;
    var actions :| IsRun(Init(), actions) && s == After(Init(), actions);
    InitInv();
    RunKeepsInv(Init(), actions);
  }

  /** Theorem. No run uses a handle after rd_kafka_destroy, destroys a queue twice or for another
      resource, adds a queue that is in the set already, touches a client whose memory is gone,
      revives one whose count is 0, or deletes a queue manager with queues in its set. */
  lemma NothingGoesWrong(s: Sys)
    requires Reachable(s)
    ensures !s.fault
  {
    ReachableInv(s);
  }

  /** Theorem. The dispatcher's table has only handles that have not been destroyed; and while it
      is in a callback, the client the callback is for is still watched. */
  lemma WatchedIsLive(s: Sys)
    requires Reachable(s)
    ensures forall a :: a in s.table ==>
      a in s.handles && s.handles[a] in s.clients && s.clients[s.handles[a]].rk == a &&
        IsWatched(s.clients[s.handles[a]])
    ensures !s.disp.Idle? ==>
      var c := s.disp.client; c in s.clients && IsWatched(s.clients[c]) && !Dead(s, c, s.clients[c].rk)
  {
    ReachableInv(s);
    if !s.disp.Idle? { HandleOf(s, s.disp.client); }
  }

  // -------------------------------------------------------------------- no way back

  function Rank(stage: Stage): nat {
    match stage
    case Created => 0
    case Active => 1
    case FlagDown => 2
    case Unwatched => 3
    case Closing => 4
    case Cleared => 5
    case Closed => 6
    case Finished => 7
    case Freed => 8
  }

  ghost predicate Onward(s: Sys, s': Sys, c: Id) {
    c in s.clients ==> c in s'.clients && Rank(s.clients[c].stage) <= Rank(s'.clients[c].stage)
  }

  lemma RemoveIsOnward(s: Sys, r: Id, c: Id)
    requires r in s.queues
    ensures Onward(s, RemoveQueue(s, r), c)
  {
    hide Bad, Gone;
  }

  lemma CountIsOnward(s: Sys, c: Id, x: Id)
    ensures Onward(s, Keep(s, c), x) && Onward(s, Release(s, c), x)
  {
  }

  lemma AddIsOnward(s: Sys, c: Id, q: Addr, x: Id)
    ensures Onward(s, AddToSet(s, c, q), x)
  {
    hide Gone;
  }

  lemma DispatcherIsOnward(s: Sys, a: Action, c: Id)
    requires Inv(s) && Can(s, a)
    requires a.New? || a.Watch? || a.Signal? || a.Dequeue? || a.TimerPoll? || a.StartAssign? || a.GetPartitionQueue?
      || a.KeepConsumer? || a.AddQueue? || a.MakeResource? || a.EndAssign? || a.EndPoll?
    ensures Onward(s, Apply(s, a), c)
  {
    hide HandlesOk, TableOk, DispOk, StagesOk, ResourcesOk, SetsOk, RefsOk, Keep, AddToSet, Dead, Gone;
    if a.KeepConsumer? { CountIsOnward(s, s.disp.client, c); }
    if a.AddQueue? { AddIsOnward(s, s.disp.client, s.disp.queue, c); }
  }

  lemma CleanupIsOnward(s: Sys, a: Action, c: Id)
    requires Can(s, a) && (a.LowerFlag? || a.Unwatch? || a.Launch? || a.ClearAll? || a.CloseConsumer? || a.Flush?
      || a.Use?)
    ensures Onward(s, Apply(s, a), c)
  {
    hide Dead, Bad, Collected;
  }

  lemma EndIsOnward(s: Sys, a: Action, c: Id)
    requires Inv(s) && Can(s, a) && (a.CloseCallback? || a.DestroyConsumer? || a.FreeClient?)
    ensures Onward(s, Apply(s, a), c)
  {
    hide Inv, OnCloseCallback, Dead;
    if a.CloseCallback? { CloseCallbackKeeps(s, a.c, a.queue); }
  }

  lemma ReleaseIsOnward(s: Sys, a: Action, c: Id)
    requires Can(s, a) && (a.DropClient? || a.CleanupRemove? || a.CleanupForget? || a.DropQueue? || a.FreeRemove?
      || a.FreeRelease?)
    ensures Onward(s, Apply(s, a), c)
  {
    hide RemoveQueue, Release;
    match a
    case DropClient(x) => CountIsOnward(SetClient(s, x, s.clients[x].(held := false)), x, c);
    case CleanupRemove(r) => RemoveIsOnward(s, r, c);
    case FreeRemove(r) => RemoveIsOnward(s, r, c);
    case FreeRelease(r) => CountIsOnward(s.(queues := s.queues - {r}), s.queues[r].client, c);
    case _ =>
  }

  lemma StepIsOnward(s: Sys, a: Action, c: Id)
    requires Inv(s) && Can(s, a)
    ensures Onward(s, Apply(s, a), c)
  {
    hide Inv, Apply, Can, Onward;
    match a
    case LowerFlag(_) => CleanupIsOnward(s, a, c);
    case Unwatch(_) => CleanupIsOnward(s, a, c);
    case Launch(_) => CleanupIsOnward(s, a, c);
    case ClearAll(_) => CleanupIsOnward(s, a, c);
    case CloseCallback(_, _) => EndIsOnward(s, a, c);
    case CloseConsumer(_) => CleanupIsOnward(s, a, c);
    case DestroyConsumer(_) => EndIsOnward(s, a, c);
    case Flush(_) => CleanupIsOnward(s, a, c);
    case Use(_) => CleanupIsOnward(s, a, c);
    case FreeClient(_) => EndIsOnward(s, a, c);
    case DropClient(_) => ReleaseIsOnward(s, a, c);
    case CleanupRemove(_) => ReleaseIsOnward(s, a, c);
    case CleanupForget(_) => ReleaseIsOnward(s, a, c);
    case DropQueue(_) => ReleaseIsOnward(s, a, c);
    case FreeRemove(_) => ReleaseIsOnward(s, a, c);
    case FreeRelease(_) => ReleaseIsOnward(s, a, c);
    case _ => DispatcherIsOnward(s, a, c);
  }

  lemma {:induction false} RunIsOnward(s: Sys, actions: seq<Action>, c: Id)
    requires Inv(s) && IsRun(s, actions)
    ensures Onward(s, After(s, actions), c)
    decreases |actions|
  {
    hide Inv, Apply, Can;
    if actions == [] {
    } else {
      StepIsOnward(s, actions[0], c);
      StepKeepsInv(s, actions[0]);
      RunIsOnward(Apply(s, actions[0]), actions[1..], c);
    }
  }

  /** Theorem. Once remove has returned for a client, the dispatcher is in no poll or callback
      for it and, whatever events are still queued and whatever happens next, never will be. */
  lemma RemovedForGood(s: Sys, actions: seq<Action>, c: Id)
    requires Reachable(s) && IsRun(s, actions)
    requires c in s.clients && Rank(s.clients[c].stage) >= Rank(Unwatched)
    ensures var t := After(s, actions);
      && (!t.disp.Idle? ==> t.disp.client != c)
      && forall a :: a in t.table ==> a in t.handles && t.handles[a] != c
  {
    ReachableInv(s);
    RunKeepsInv(s, actions);
    RunIsOnward(s, actions, c);
    hide HandlesOk, StagesOk, ResourcesOk, SetsOk, IdsOk, RefsOk, Apply, Can;
  }

  /** Theorem. After clear_all has run for a client, its set is empty for good, although librdkafka
      may still call back while the client is being closed. */
  lemma NoQueueAfterClearAll(s: Sys, actions: seq<Action>, c: Id)
    requires Reachable(s) && IsRun(s, actions)
    requires c in s.clients && Rank(s.clients[c].stage) >= Rank(Cleared)
    ensures var t := After(s, actions); c in t.clients && t.clients[c].qset == {}
  {
    ReachableInv(s);
    RunKeepsInv(s, actions);
    RunIsOnward(s, actions, c);
    hide Inv, Apply, Can;
    ClearedIsEmpty(After(s, actions), c);
  }

  lemma ClearedIsEmpty(s: Sys, c: Id)
    requires Inv(s) && c in s.clients && Rank(s.clients[c].stage) >= Rank(Cleared)
    ensures s.clients[c].qset == {}
  {
    assert StageOk(s.clients[c]);
  }

  // -------------------------------------------------------------------- queue resources

  /** Theorem. Two resources hold the same queue only while one of them is about to forget it,
      having just destroyed it. */
  lemma QueueHeldOnce(s: Sys, a: Id, b: Id)
    requires Reachable(s) && a in s.queues && b in s.queues && a != b
    requires s.queues[a].queue == s.queues[b].queue != NULL
    ensures s.queues[a].cleaning || s.queues[a].freeing || s.queues[b].cleaning || s.queues[b].freeing
  {
    ReachableInv(s);
    assert ResourceOk(s.queues[a], a, s.clients, s.live) && ResourceOk(s.queues[b], b, s.clients, s.live);
  }

  /** Theorem. A queue in a client's set has not been destroyed, belongs to the one resource that
      holds it or is just being made, is in no other client's set, and keeps the client and its
      handle. */
  lemma SetMemberIsOwned(s: Sys, c: Id, p: Addr)
    requires Reachable(s) && c in s.clients && p in s.clients[c].qset
    ensures p in s.live && var r := s.live[p];
      s.disp == Added(c, p, r) || (r in s.queues && s.queues[r].client == c && s.queues[r].queue == p)
    ensures s.clients[c].refs >= 1 && !s.clients[c].stage.Freed? && !Dead(s, c, s.clients[c].rk)
    ensures forall d :: d in s.clients && p in s.clients[d].qset ==> d == c
  {
    ReachableInv(s);
    assert Owned(c, p, s.disp, s.queues, s.live) && StageOk(s.clients[c]);
    HandleOf(s, c);
    if s.disp != Added(c, p, s.live[p]) { ResourceKeepsClient(s, s.live[p]); }
    forall d | d in s.clients && p in s.clients[d].qset ensures d == c {
      assert Owned(d, p, s.disp, s.queues, s.live);
    }
  }

  /** Theorem. The memory of a client goes only when no resource of it is left, and the set of
      its queue manager is then empty. */
  lemma EmptyWhenFreed(s: Sys, c: Id)
    requires Reachable(s) && Can(s, FreeClient(c))
    ensures s.clients[c].qset == {} && forall r :: r in s.queues ==> s.queues[r].client != c
  {
    ReachableInv(s);
    assert StageOk(s.clients[c]);
    forall r | r in s.queues ensures s.queues[r].client != c {
      ResourceKeepsClient(s, r);
    }
  }

  /** Theorem. Only the resource that a queue was made for destroys it, and then it is gone. */
  lemma DestroyedByItsOwner(s: Sys, a: Action, p: Addr)
    requires Reachable(s) && Can(s, a) && p in s.live && p !in Apply(s, a).live
    ensures (a.CleanupRemove? || a.FreeRemove?) && a.r == s.live[p] && s.queues[a.r].queue == p
    ensures !s.queues[a.r].cleaning && !s.queues[a.r].freeing
  {
    ReachableInv(s);
    OnlyRemoveDestroys(s, a, p);
    assert ResourceOk(s.queues[a.r], a.r, s.clients, s.live);
    SetMemberIsOwn(s, a.r, s.queues[a.r].client);
  }

  lemma RemoveDestroys(s: Sys, r: Id, p: Addr)
    requires r in s.queues && p in s.live && p !in RemoveQueue(s, r).live
    ensures s.queues[r].queue == p && s.queues[r].client in s.clients && p in s.clients[s.queues[r].client].qset
  {
    if s.queues[r].client in s.clients { RemoveQueueIs(s, r); }
    hide Bad, Gone, Destroyed, RemoveCalls;
  }

  lemma CountKeepsLive(s: Sys, c: Id, q: Addr)
    ensures Keep(s, c).live == Release(s, c).live == AddToSet(s, c, q).live == s.live
  {
    hide Gone;
  }

  lemma CloseCallbackKeepsLive(s: Sys, c: Id, q: Addr, p: Addr)
    requires c in s.clients && p in s.live
    ensures p in OnCloseCallback(s, c, q).live
  {
    hide AddToSet, Keep;
    var t := s.(live := s.live[q := s.nextId], nextId := s.nextId + 1);
    CountKeepsLive(t, c, q);
    CountKeepsLive(Keep(t, c), c, q);
  }

  lemma ReleaseKeepsLive(s: Sys, a: Action, p: Addr)
    requires Can(s, a) && p in s.live && (a.DropClient? || a.FreeRelease? || a.CleanupForget? || a.DropQueue? ||
      a.KeepConsumer? || a.AddQueue?)
    ensures p in Apply(s, a).live
  {
    hide Release, Keep, AddToSet;
    match a
    case DropClient(c) => CountKeepsLive(SetClient(s, c, s.clients[c].(held := false)), c, p);
    case FreeRelease(r) => CountKeepsLive(s.(queues := s.queues - {r}), s.queues[r].client, p);
    case KeepConsumer => CountKeepsLive(s, s.disp.client, p);
    case AddQueue => CountKeepsLive(s, s.disp.client, s.disp.queue);
    case _ =>
  }

  lemma OtherKeepsLive(s: Sys, a: Action, p: Addr)
    requires Can(s, a) && p in s.live
    requires !a.CleanupRemove? && !a.FreeRemove? && !a.DropClient? && !a.FreeRelease? && !a.CleanupForget?
      && !a.DropQueue?
      && !a.KeepConsumer? && !a.AddQueue? && !a.CloseCallback?
    ensures p in Apply(s, a).live
  {
    hide Bad, Gone, Dead, Can;
  }

  lemma OnlyRemoveDestroys(s: Sys, a: Action, p: Addr)
    requires Can(s, a) && p in s.live && p !in Apply(s, a).live
    ensures (a.CleanupRemove? || a.FreeRemove?) && s.queues[a.r].queue == p
    ensures s.queues[a.r].client in s.clients && p in s.clients[s.queues[a.r].client].qset
  {
    if a.CleanupRemove? || a.FreeRemove? {
      hide RemoveQueue;
      RemoveDestroys(s, a.r, p);
    } else if a.CloseCallback? {
      CloseCallbackKeepsLive(s, a.c, a.queue, p);
    } else if a.DropClient? || a.FreeRelease? || a.CleanupForget? || a.DropQueue? || a.KeepConsumer? || a.AddQueue? {
      ReleaseKeepsLive(s, a, p);
    } else {
      OtherKeepsLive(s, a, p);
    }
  }

  // ------------------------------------------------------------ what clear_all has not touched

  /** A queue that a resource holds is in its client's set, as long as clear_all has not run. */
  ghost predicate InSet(q: QRes, clients: map<Id, Client>) {
    q.queue != NULL && !q.cleaning && !q.freeing && q.client in clients &&
      Rank(clients[q.client].stage) < Rank(Cleared) ==>
      q.queue in clients[q.client].qset
  }

  ghost predicate Complete(s: Sys) {
    forall r :: r in s.queues ==> InSet(s.queues[r], s.clients)
  }

  /** The client has not gone back, and has nothing less in its set unless it has been cleared. */
  ghost predicate HasAtLeast(k0: Client, k: Client) {
    Rank(k0.stage) <= Rank(k.stage) && (Rank(k.stage) < Rank(Cleared) ==> k0.qset <= k.qset)
  }

  lemma SameQueuesKeepComplete(s: Sys, t: Sys)
    requires Complete(s) && t.queues == s.queues
    requires forall c :: c in t.clients ==> c !in s.clients || HasAtLeast(s.clients[c], t.clients[c])
    requires forall r :: r in s.queues ==> s.queues[r].client in s.clients
    ensures Complete(t)
  {
  }

  lemma ClientsOfQueues(s: Sys)
    requires Inv(s)
    ensures forall r :: r in s.queues ==> s.queues[r].client in s.clients
    ensures s.nextId !in s.clients
  {
    forall r | r in s.queues ensures s.queues[r].client in s.clients {
      assert ResourceOk(s.queues[r], r, s.clients, s.live);
    }
  }

  ghost predicate GrowsOnly(s: Sys, t: Sys) {
    t.queues == s.queues && forall c :: c in t.clients && c in s.clients ==> HasAtLeast(s.clients[c], t.clients[c])
  }

  lemma CountGrows(s: Sys, c: Id, q: Addr)
    ensures GrowsOnly(s, Keep(s, c)) && GrowsOnly(s, Release(s, c)) && GrowsOnly(s, AddToSet(s, c, q))
  {
    hide Gone;
  }

  lemma NewGrows(s: Sys, kind: Kind, addr: Addr)
    requires Inv(s)
    ensures GrowsOnly(s, OnNew(s, kind, addr))
  {
    ClientsOfQueues(s);
    hide Inv;
  }

  lemma DispatcherGrows(s: Sys, a: Action)
    requires Inv(s) && Can(s, a)
    requires a.New? || a.Watch? || a.Signal? || a.Dequeue? || a.TimerPoll? || a.StartAssign? || a.GetPartitionQueue?
      || a.KeepConsumer? || a.AddQueue? || a.EndAssign? || a.EndPoll?
    ensures GrowsOnly(s, Apply(s, a))
  {
    hide Inv, Keep, AddToSet, Dead, Gone, OnNew, OnUnwatch, OnClearAll, OnDropClient, OnCloseCallback,
      OnDestroyConsumer, OnFreeClient, OnCleanupRemove, OnFreeRemove, OnFreeRelease;
    if a.New? { NewGrows(s, a.kind, a.addr); }
    if a.KeepConsumer? { CountGrows(s, s.disp.client, NULL); }
    if a.AddQueue? { CountGrows(s, s.disp.client, s.disp.queue); }
  }

  lemma UseGrows(s: Sys, a: Action)
    requires Can(s, a) && (a.CloseConsumer? || a.Flush? || a.Use? || a.DropClient?)
    ensures GrowsOnly(s, Apply(s, a))
  {
    hide Dead, Bad, Collected, Release, OnWatch, OnUnwatch, OnClearAll, OnNew, OnDequeue, OnStartAssign,
      OnGetPartitionQueue, OnKeep, OnAdd, OnMakeResource, OnCloseCallback, OnDestroyConsumer, OnFreeClient,
      OnCleanupRemove, OnFreeRemove, OnFreeRelease;
    if a.DropClient? { CountGrows(SetClient(s, a.c, s.clients[a.c].(held := false)), a.c, NULL); }
  }

  lemma CleanupGrows(s: Sys, a: Action)
    requires Can(s, a)
    requires a.LowerFlag? || a.Unwatch? || a.Launch? || a.ClearAll? || a.CloseConsumer? || a.Flush? || a.Use?
      || a.DropClient?
    ensures GrowsOnly(s, Apply(s, a))
  {
    hide Dead, Bad, Collected, Release, OnWatch, OnDropClient, OnNew, OnDequeue, OnStartAssign, OnGetPartitionQueue,
      OnKeep, OnAdd, OnMakeResource, OnCloseCallback, OnDestroyConsumer, OnFreeClient, OnCleanupRemove, OnFreeRemove,
      OnFreeRelease;
    if a.CloseConsumer? || a.Flush? || a.Use? || a.DropClient? {
      hide Apply, GrowsOnly;
      UseGrows(s, a);
    }
  }

  lemma DestroyGrows(s: Sys, c: Id)
    requires Can(s, DestroyConsumer(c))
    ensures GrowsOnly(s, OnDestroyConsumer(s, c))
  {
    hide Dead;
  }

  lemma FreeGrows(s: Sys, c: Id)
    requires Can(s, FreeClient(c))
    ensures GrowsOnly(s, OnFreeClient(s, c))
  {
    hide Dead;
  }

  lemma EndGrows(s: Sys, a: Action)
    requires Inv(s) && Can(s, a) && (a.CloseCallback? || a.DestroyConsumer? || a.FreeClient?)
    ensures GrowsOnly(s, Apply(s, a))
  {
    hide Inv, Can, GrowsOnly, OnCloseCallback, OnDestroyConsumer, OnFreeClient, OnNew, OnWatch, OnDequeue,
      OnStartAssign, OnGetPartitionQueue, OnKeep, OnAdd, OnMakeResource, OnUnwatch, OnClearAll, OnDropClient,
      OnCleanupRemove, OnFreeRemove, OnFreeRelease;
    match a
    case CloseCallback(c, q) => CloseCallbackKeeps(s, c, q); SameGrows(s);
    case DestroyConsumer(c) => DestroyGrows(s, c);
    case FreeClient(c) => FreeGrows(s, c);
  }

  lemma SameGrows(s: Sys)
    ensures GrowsOnly(s, s)
  {
  }

  /** What remove does to the sets: the resource's queue leaves its client's. */
  lemma RemoveShape(s: Sys, r: Id)
    requires r in s.queues && s.queues[r].client in s.clients
    ensures var (t, c, p) := (RemoveQueue(s, r), s.queues[r].client, s.queues[r].queue);
      && t.queues == s.queues
      && t.clients == s.clients[c := s.clients[c].(qset := s.clients[c].qset - {p})]
      && t.live == if p in s.clients[c].qset then s.live - {p} else s.live
  {
    RemoveQueueIs(s, r);
    hide Bad, Gone, RemoveQueue, RemoveCalls;
    var k, q := s.clients[s.queues[r].client], s.queues[r].queue;
    if q !in k.qset { assert k.qset - {q} == k.qset && s.clients[s.queues[r].client := k] == s.clients; }
  }

  /** No two resources hold the same queue. */
  lemma QueuesAreApart(s: Sys, r: Id)
    requires ResourcesOk(s.queues, s.clients, s.live)
    requires r in s.queues && !s.queues[r].cleaning && !s.queues[r].freeing && s.queues[r].queue != NULL
    ensures forall x :: x in s.queues && x != r && !s.queues[x].cleaning && !s.queues[x].freeing ==>
              s.queues[x].queue != s.queues[r].queue
  {
    assert ResourceOk(s.queues[r], r, s.clients, s.live);
    forall x | x in s.queues && x != r && !s.queues[x].cleaning && !s.queues[x].freeing
      ensures s.queues[x].queue != s.queues[r].queue
    {
      assert ResourceOk(s.queues[x], x, s.clients, s.live);
    }
  }

  lemma RemoveKeepsComplete(s: Sys, r: Id, q: QRes)
    requires Inv(s) && Complete(s) && r in s.queues && !s.queues[r].cleaning && !s.queues[r].freeing &&
      s.queues[r].queue != NULL
    requires q.client == s.queues[r].client && (q.cleaning || q.freeing)
    ensures Complete(SetQueue(RemoveQueue(s, r), r, q))
  {
    var t := RemoveQueue(s, r);
    ClientsOfQueues(s);
    RemoveShape(s, r);
    QueuesAreApart(s, r);
    hide RemoveQueue, Inv, InSet;
    FlaggedIsInSet(q, t.clients);
    forall x | x in t.queues && x != r ensures InSet(t.queues[x], t.clients) {
      OneLessInSet(s.queues[x], s.clients, t.clients, s.queues[r].client, s.queues[r].queue);
    }
  }

  lemma FlaggedIsInSet(q: QRes, clients: map<Id, Client>)
    requires q.cleaning || q.freeing
    ensures InSet(q, clients)
  {
  }

  lemma OneLessInSet(q: QRes, clients: map<Id, Client>, clients': map<Id, Client>, c: Id, p: Addr)
    requires InSet(q, clients) && (q.queue != p || q.cleaning || q.freeing) && c in clients
    requires clients' == clients[c := clients[c].(qset := clients[c].qset - {p})]
    ensures InSet(q, clients')
  {
  }

  lemma QueueStepKeepsComplete(s: Sys, a: Action)
    requires Inv(s) && Complete(s) && Can(s, a)
    requires a.CleanupRemove? || a.CleanupForget? || a.DropQueue? || a.FreeRemove? || a.FreeRelease? || a.MakeResource?
    ensures Complete(Apply(s, a))
  {
    hide Inv, Complete, OnNew, OnWatch, OnDequeue, OnStartAssign, OnGetPartitionQueue, OnKeep, OnAdd, OnMakeResource,
      OnUnwatch, OnClearAll, OnDropClient, OnCloseCallback, OnDestroyConsumer, OnFreeClient, OnCleanupRemove,
      OnFreeRemove, OnFreeRelease;
    match a
    case CleanupRemove(r) => CleanupRemoveKeepsComplete(s, r);
    case FreeRemove(r) => FreeRemoveKeepsComplete(s, r);
    case FreeRelease(r) => FreeReleaseKeepsComplete(s, r);
    case MakeResource => MakeResourceKeepsComplete(s);
    case CleanupForget(_) => FlagsKeepComplete(s, a);
    case DropQueue(_) => FlagsKeepComplete(s, a);
  }

  lemma FlagsKeepComplete(s: Sys, a: Action)
    requires Complete(s) && Can(s, a) && (a.CleanupForget? || a.DropQueue?)
    ensures Complete(Apply(s, a))
  {
    hide OnNew, OnWatch, OnDequeue, OnStartAssign, OnGetPartitionQueue, OnKeep, OnAdd, OnMakeResource, OnUnwatch,
      OnClearAll, OnDropClient, OnCloseCallback, OnDestroyConsumer, OnFreeClient, OnCleanupRemove, OnFreeRemove,
      OnFreeRelease;
  }

  lemma CleanupRemoveKeepsComplete(s: Sys, r: Id)
    requires Inv(s) && Complete(s) && Can(s, CleanupRemove(r))
    ensures Complete(OnCleanupRemove(s, r))
  {
    assert ResourceOk(s.queues[r], r, s.clients, s.live);
    hide RemoveQueue, Inv;
    if s.queues[r].queue != NULL {
      RemoveKeepsComplete(s, r, s.queues[r].(cleaning := true));
    } else {
      NullRemoveKeepsComplete(s, r);
    }
  }

  lemma NullRemoveKeepsComplete(s: Sys, r: Id)
    requires Inv(s) && Complete(s) && r in s.queues && s.queues[r].queue == NULL
    ensures Complete(SetQueue(RemoveQueue(s, r), r, s.queues[r].(cleaning := true)))
  {
    ClientsOfQueues(s);
    NullIsInNoSet(s, s.queues[r].client);
    RemoveShape(s, r);
    hide RemoveQueue, Inv;
    var (c, t) := (s.queues[r].client, RemoveQueue(s, r));
    assert s.clients[c].qset - {NULL} == s.clients[c].qset && s.clients[c := s.clients[c]] == s.clients;
    assert t.clients == s.clients;
  }

  lemma NullIsInNoSet(s: Sys, c: Id)
    requires Inv(s) && c in s.clients
    ensures NULL !in s.clients[c].qset
  {
    assert !Owned(c, NULL, s.disp, s.queues, s.live);
  }

  lemma FreeRemoveKeepsComplete(s: Sys, r: Id)
    requires Inv(s) && Complete(s) && Can(s, FreeRemove(r))
    ensures Complete(OnFreeRemove(s, r))
  {
    assert ResourceOk(s.queues[r], r, s.clients, s.live);
    hide RemoveQueue, Inv;
    if s.queues[r].queue != NULL { RemoveKeepsComplete(s, r, s.queues[r].(freeing := true)); }
  }

  lemma FreeReleaseKeepsComplete(s: Sys, r: Id)
    requires Inv(s) && Complete(s) && Can(s, FreeRelease(r))
    ensures Complete(OnFreeRelease(s, r))
  {
    var t := s.(queues := s.queues - {r});
    ClientsOfQueues(s);
    CountGrows(t, s.queues[r].client, NULL);
    hide Inv, Release;
    assert Complete(t);
    ReleaseKeepsClients(t, s.queues[r].client);
    SameQueuesKeepComplete(t, OnFreeRelease(s, r));
  }

  lemma ReleaseKeepsClients(s: Sys, c: Id)
    ensures Release(s, c).clients.Keys == s.clients.Keys
  {
  }

  lemma MakeResourceKeepsComplete(s: Sys)
    requires Inv(s) && Complete(s) && Can(s, MakeResource)
    ensures Complete(OnMakeResource(s))
  {
    hide HandlesOk, TableOk, StagesOk, ResourcesOk, SetsOk, IdsOk, RefsOk;
  }

  lemma StepKeepsComplete(s: Sys, a: Action)
    requires Inv(s) && Complete(s) && Can(s, a)
    ensures Complete(Apply(s, a))
  {
    ClientsOfQueues(s);
    hide Inv, Apply, Can, Complete;
    if a.CleanupRemove? || a.CleanupForget? || a.DropQueue? || a.FreeRemove? || a.FreeRelease? || a.MakeResource? {
      QueueStepKeepsComplete(s, a);
    } else {
      if a.LowerFlag? || a.Unwatch? || a.Launch? || a.ClearAll? || a.CloseConsumer? || a.Flush? || a.Use? ||
        a.DropClient? {
        CleanupGrows(s, a);
      } else if a.CloseCallback? || a.DestroyConsumer? || a.FreeClient? {
        EndGrows(s, a);
      } else {
        DispatcherGrows(s, a);
      }
      SameQueuesKeepComplete(s, Apply(s, a));
    }
  }

  lemma {:induction false} RunKeepsComplete(s: Sys, actions: seq<Action>)
    requires Inv(s) && Complete(s) && IsRun(s, actions)
    ensures Complete(After(s, actions))
    decreases |actions|
  {
    hide Inv, Complete, Apply, Can;
    if actions == [] {
    } else {
      StepKeepsComplete(s, actions[0]);
      StepKeepsInv(s, actions[0]);
      RunKeepsComplete(Apply(s, actions[0]), actions[1..]);
    }
  }

  /** Theorem. Until clear_all has run for its client, cleaning up a resource's queue and, if that
      has not been done, freeing the resource does destroy the queue: nothing is forgotten. */
  lemma NothingIsForgottenBeforeClearAll(s: Sys, r: Id, a: Action)
    requires Reachable(s) && Can(s, a) && (a == CleanupRemove(r) || a == FreeRemove(r))
    requires s.queues[r].queue != NULL && s.queues[r].client in s.clients &&
      Rank(s.clients[s.queues[r].client].stage) < Rank(Cleared)
    ensures s.queues[r].queue in s.live && s.live[s.queues[r].queue] == r
    ensures var t := Apply(s, a);
      s.queues[r].queue !in t.live && forall c :: c in t.clients ==> s.queues[r].queue !in t.clients[c].qset
  {
    ReachableInv(s);
    ReachableComplete(s);
    var (c, p) := (s.queues[r].client, s.queues[r].queue);
    HeldIsInSet(s, r, a);
    OnlyInOwnSet(s, r);
    RemoveShape(s, r);
    hide RemoveQueue, Inv, Complete, OnNew, OnWatch, OnDequeue, OnStartAssign, OnGetPartitionQueue, OnKeep, OnAdd,
      OnMakeResource, OnUnwatch, OnClearAll, OnDropClient, OnCloseCallback, OnDestroyConsumer, OnFreeClient,
      OnFreeRelease;
  }

  lemma HeldIsInSet(s: Sys, r: Id, a: Action)
    requires Inv(s) && Complete(s) && Can(s, a) && (a == CleanupRemove(r) || a == FreeRemove(r))
    requires s.queues[r].queue != NULL && s.queues[r].client in s.clients &&
      Rank(s.clients[s.queues[r].client].stage) < Rank(Cleared)
    ensures s.queues[r].queue in s.clients[s.queues[r].client].qset && !s.queues[r].cleaning && !s.queues[r].freeing
    ensures s.queues[r].queue in s.live && s.live[s.queues[r].queue] == r
  {
    assert ResourceOk(s.queues[r], r, s.clients, s.live) && InSet(s.queues[r], s.clients);
  }

  lemma OnlyInOwnSet(s: Sys, r: Id)
    requires Inv(s) && r in s.queues && !s.queues[r].cleaning && !s.queues[r].freeing
    ensures forall d :: d in s.clients && s.queues[r].queue in s.clients[d].qset ==> d == s.queues[r].client
  {
    forall d | d in s.clients && s.queues[r].queue in s.clients[d].qset ensures d == s.queues[r].client {
      SetMemberIsOwn(s, r, d);
    }
  }

  lemma ReachableComplete(s: Sys)
    requires Reachable(s)
    ensures Complete(s)
  {
    hide Inv;
    var actions :| IsRun(Init(), actions) && s == After(Init(), actions);
    InitInv();
    assert Complete(Init());
    RunKeepsComplete(Init(), actions);
  }
}
