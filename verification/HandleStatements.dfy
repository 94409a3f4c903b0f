/**
  Whole functions of c_src/exrdkafka_consumer.cc and c_src/exrdkafka_producer.cc, when nothing comes
  between their statements: what the steps of module HandleLifetime amount to. The methods of
  module Resources are stated with the same functions.
 */
module HandleStatements {
  import opened QueueManager
  import opened HandleLifetime
  import opened HandleSteps
  import opened HandleTheorems

  /** enif_new_queue. */
  function WithQueue(k: Client, q: Addr): Client {
    k.(refs := k.refs + 1, qset := k.qset + {q})
  }

  /** QueueManager::remove. */
  function WithoutQueue(k: Client, q: Addr): Client {
    k.(qset := k.qset - {q})
  }

  /** enif_release_resource. */
  function Released(k: Client): Client
    requires k.refs > 0
  {
    k.(refs := k.refs - 1)
  }

  /** enif_consumer_cleanup and enif_producer_cleanup. */
  function CleanupBegun(k: Client): Client {
    k.(running := k.running && k.kind.Producer?, stage := Closing)
  }

  /** cleanup_consumer and cleanup_producer: only the consumer's handle is destroyed there. */
  function CleanedUp(k: Client): Client {
    if k.kind.Consumer? then k.(qset := {}, kf := NULL, stage := Finished) else k.(stage := Finished)
  }

  function Ended(k: Client): Client {
    k.(stage := Freed)
  }

  // ------------------------------------------------------------------------ runs of a few steps

  ghost predicate Goes(s: Sys, a: Action, t: Sys) {
    Can(s, a) && Apply(s, a) == t
  }

  ghost predicate RunsTo(s: Sys, actions: seq<Action>, t: Sys) {
    IsRun(s, actions) && After(s, actions) == t
  }

  lemma {:induction false} OneStep(s: Sys, a: Action, t: Sys, rest: seq<Action>, u: Sys)
    requires Goes(s, a, t) && RunsTo(t, rest, u)
    ensures RunsTo(s, [a] + rest, u)
  {
    hide Can, Apply;
    assert ([a] + rest)[1..] == rest;
  }

  lemma TwoSteps(s: Sys, a: Action, t: Sys, b: Action, u: Sys)
    requires Goes(s, a, t) && Goes(t, b, u)
    ensures RunsTo(s, [a, b], u)
  {
    hide Goes, Can, Apply;
    assert RunsTo(u, [], u) && [b] + [] == [b] && [a] + [b] == [a, b];
    hide RunsTo;
    OneStep(t, b, u, [], u);
    OneStep(s, a, t, [b], u);
  }

  lemma ThreeSteps(s: Sys, a: Action, t: Sys, b: Action, u: Sys, c: Action, v: Sys)
    requires Goes(s, a, t) && Goes(t, b, u) && Goes(u, c, v)
    ensures RunsTo(s, [a, b, c], v)
  {
    hide Goes, RunsTo;
    assert [a] + [b, c] == [a, b, c];
    TwoSteps(t, b, u, c, v);
    OneStep(s, a, t, [b, c], v);
  }

  lemma FourSteps(s: Sys, a: Action, t: Sys, b: Action, u: Sys, c: Action, v: Sys, d: Action, w: Sys)
    requires Goes(s, a, t) && Goes(t, b, u) && Goes(u, c, v) && Goes(v, d, w)
    ensures RunsTo(s, [a, b, c, d], w)
  {
    hide Goes, RunsTo;
    assert [a] + [b, c, d] == [a, b, c, d];
    ThreeSteps(t, b, u, c, v, d, w);
    OneStep(s, a, t, [b, c, d], w);
  }

  /** The state with another record for one client. */
  function Became(s: Sys, c: Id, k: Client): Sys {
    s.(clients := s.clients[c := k])
  }

  lemma BecameTwice(s: Sys, c: Id, a: Client, b: Client)
    ensures Became(Became(s, c, a), c, b) == Became(s, c, b)
  {
    assert s.clients[c := a][c := b] == s.clients[c := b];
  }

  /** The client's handle is its own and alive. */
  ghost predicate Owns(s: Sys, c: Id, k: Client) {
    k.kf == k.rk && !Dead(s, c, k.rk)
  }

  // --------------------------------------------------------------------------- enif_new_queue

  lemma GetStep(s: Sys, q: Addr)
    requires s.disp.Assigning? && q != NULL && q !in s.live
    requires s.disp.client in s.clients && !Dead(s, s.disp.client, s.clients[s.disp.client].rk)
    ensures Goes(s, GetPartitionQueue(q),
                 s.(disp := Got(s.disp.client, q, s.nextId), live := s.live[q := s.nextId], nextId := s.nextId + 1))
  {
    hide OnNew, OnWatch, OnDequeue, OnStartAssign, OnKeep, OnAdd, OnMakeResource, OnUnwatch, OnClearAll, OnDropClient,
      OnCloseCallback, OnDestroyConsumer, OnFreeClient, OnCleanupRemove, OnFreeRemove, OnFreeRelease;
  }

  lemma KeepStep(s: Sys)
    requires s.disp.Got? && s.disp.client in s.clients && s.clients[s.disp.client].refs > 0
    ensures var (c, k) := (s.disp.client, s.clients[s.disp.client]);
      Goes(s, KeepConsumer, Became(s, c, k.(refs := k.refs + 1)).(disp := Kept(c, s.disp.queue, s.disp.res)))
  {
    hide OnNew, OnWatch, OnDequeue, OnStartAssign, OnGetPartitionQueue, OnAdd, OnMakeResource, OnUnwatch, OnClearAll,
      OnDropClient, OnCloseCallback, OnDestroyConsumer, OnFreeClient, OnCleanupRemove, OnFreeRemove, OnFreeRelease;
  }

  lemma AddStep(s: Sys)
    requires s.disp.Kept? && s.disp.client in s.clients && !Gone(s, s.disp.client)
    requires s.disp.queue !in s.clients[s.disp.client].qset && s.disp.queue in s.live
    ensures var (c, k) := (s.disp.client, s.clients[s.disp.client]);
      Goes(s, AddQueue, Became(s, c, k.(qset := k.qset + {s.disp.queue})).(disp := Added(c, s.disp.queue, s.disp.res)))
  {
    WhenDetachIsBad(s, s.disp.client, 0, s.disp.queue);
    hide Bad, OnNew, OnWatch, OnDequeue, OnStartAssign, OnGetPartitionQueue, OnKeep, OnMakeResource, OnUnwatch,
      OnClearAll, OnDropClient, OnCloseCallback, OnDestroyConsumer, OnFreeClient, OnCleanupRemove, OnFreeRemove,
      OnFreeRelease;
  }

  lemma MakeStep(s: Sys)
    requires s.disp.Added?
    ensures var q := QRes(s.disp.client, s.disp.queue, true, false, false);
      Goes(s, MakeResource, s.(queues := s.queues[s.disp.res := q], disp := Assigning(s.disp.client)))
  {
    hide OnNew, OnWatch, OnDequeue, OnStartAssign, OnGetPartitionQueue, OnKeep, OnAdd, OnUnwatch, OnClearAll,
      OnDropClient, OnCloseCallback, OnDestroyConsumer, OnFreeClient, OnCleanupRemove, OnFreeRemove, OnFreeRelease;
  }

  lemma AssigningFacts(s: Sys, q: Addr)
    requires Reachable(s) && s.disp.Assigning? && q !in s.live
    ensures var c := s.disp.client;
      && c in s.clients && s.clients[c].refs > 0 && !s.clients[c].stage.Freed? && q !in s.clients[c].qset
      && !Dead(s, c, s.clients[c].rk)
  {
    ReachableInv(s);
    var c := s.disp.client;
    assert StageOk(s.clients[c]) && s.clients[c].held;
    assert !Owned(c, q, s.disp, s.queues, s.live);
    HandleOf(s, c);
    hide Inv;
  }

  /** Theorem. One more reference, the queue in the set, and a resource that holds it. */
  lemma NewQueueInOneGo(s: Sys, q: Addr)
    requires Reachable(s) && Can(s, GetPartitionQueue(q))
    ensures s.disp.client in s.clients
    ensures var c := s.disp.client;
      RunsTo(s, [GetPartitionQueue(q), KeepConsumer, AddQueue, MakeResource],
             Became(s, c, WithQueue(s.clients[c], q)).(queues := s.queues[s.nextId := QRes(c, q, true, false, false)],
                                                       live := s.live[q := s.nextId], nextId := s.nextId + 1))
  {
    hide Reachable, Goes, RunsTo;
    AssigningFacts(s, q);
    var (c, k) := (s.disp.client, s.clients[s.disp.client]);
    var s1 := s.(disp := Got(c, q, s.nextId), live := s.live[q := s.nextId], nextId := s.nextId + 1);
    GetStep(s, q);
    var s2 := Became(s1, c, k.(refs := k.refs + 1)).(disp := Kept(c, q, s.nextId));
    KeepStep(s1);
    var s3 := Became(s1, c, WithQueue(k, q)).(disp := Added(c, q, s.nextId));
    BecameTwice(s1, c, k.(refs := k.refs + 1), WithQueue(k, q));
    AddStep(s2);
    MakeStep(s3);
    FourSteps(s, GetPartitionQueue(q), s1, KeepConsumer, s2, AddQueue, s3, MakeResource,
              s3.(queues := s3.queues[s.nextId := QRes(c, q, true, false, false)], disp := Assigning(c)));
  }

  // ------------------------------------------------------------------- cleaning a client up

  /** The state once a handle is out of the dispatcher's table. */
  function Forgotten(s: Sys, addr: Addr): Sys {
    s.(table := s.table - {addr}, events := s.events + if addr in s.table then [NULL] else [])
  }

  lemma LowerStep(s: Sys, c: Id)
    requires Can(s, LowerFlag(c))
    ensures Goes(s, LowerFlag(c), Became(s, c, s.clients[c].(running := false, stage := FlagDown)))
  {
  }

  lemma UnwatchStep(s: Sys, c: Id)
    requires Can(s, Unwatch(c)) && s.clients[c].kf == s.clients[c].rk
    ensures Goes(s, Unwatch(c), Forgotten(Became(s, c, s.clients[c].(stage := Unwatched)), s.clients[c].rk))
  {
  }

  lemma LaunchStep(s: Sys, c: Id)
    requires Can(s, Launch(c))
    ensures Goes(s, Launch(c), Became(s, c, s.clients[c].(stage := Closing)))
  {
  }

  lemma OpenFacts(s: Sys, c: Id)
    requires Reachable(s) && c in s.clients && Open(s.clients[c])
    ensures Owns(s, c, s.clients[c])
  {
    ReachableInv(s);
    HandleOf(s, c);
    hide Inv;
  }

  /** Theorem. enif_consumer_cleanup: the flag down, the handle out of the table, the asynchronous
      cleanup under way. */
  lemma ConsumerCleanupInOneGo(s: Sys, c: Id)
    requires Reachable(s) && Can(s, LowerFlag(c)) && s.disp.Idle?
    ensures var k := s.clients[c];
      RunsTo(s, [LowerFlag(c), Unwatch(c), Launch(c)], Forgotten(Became(s, c, CleanupBegun(k)), k.rk))
  {
    OpenFacts(s, c);
    var k := s.clients[c];
    var k1, k2 := k.(running := false, stage := FlagDown), k.(running := false, stage := Unwatched);
    hide Reachable, Goes, RunsTo;
    LowerStep(s, c);
    BecameTwice(s, c, k1, k2);
    UnwatchStep(Became(s, c, k1), c);
    BecameTwice(s, c, k2, CleanupBegun(k));
    var s2 := Forgotten(Became(s, c, k2), k.rk);
    LaunchStep(s2, c);
    ThreeSteps(s, LowerFlag(c), Became(s, c, k1), Unwatch(c), s2, Launch(c),
      Forgotten(Became(s, c, CleanupBegun(k)), k.rk));
  }

  /** Theorem. enif_producer_cleanup. */
  lemma ProducerCleanupInOneGo(s: Sys, c: Id)
    requires Reachable(s) && Can(s, Unwatch(c)) && Is(s, c, Producer, Active) && s.clients[c].held
    ensures var k := s.clients[c]; RunsTo(s, [Unwatch(c), Launch(c)], Forgotten(Became(s, c, CleanupBegun(k)), k.rk))
  {
    OpenFacts(s, c);
    var k := s.clients[c];
    var k1 := k.(stage := Unwatched);
    hide Reachable, Goes, RunsTo;
    UnwatchStep(s, c);
    BecameTwice(s, c, k1, k.(stage := Closing));
    var s1 := Forgotten(Became(s, c, k1), k.rk);
    LaunchStep(s1, c);
    ProducerStaysRunning(s, c);
    TwoSteps(s, Unwatch(c), s1, Launch(c), Forgotten(Became(s, c, CleanupBegun(k)), k.rk));
  }

  lemma ProducerStaysRunning(s: Sys, c: Id)
    requires Is(s, c, Producer, Active)
    ensures CleanupBegun(s.clients[c]) == s.clients[c].(stage := Closing)
  {
  }

  lemma ClearStep(s: Sys, c: Id)
    requires Reachable(s) && Can(s, ClearAll(c))
    ensures Goes(s, ClearAll(c), Became(s, c, s.clients[c].(qset := {}, stage := Cleared)))
  {
    ReachableInv(s);
    ClearAllIsFine(s, c);
    hide Inv, Bad;
  }

  lemma CloseStep(s: Sys, c: Id)
    requires Can(s, CloseConsumer(c)) && Owns(s, c, s.clients[c])
    ensures Goes(s, CloseConsumer(c), Became(s, c, s.clients[c].(stage := Closed)))
  {
  }

  lemma DestroyStep(s: Sys, c: Id)
    requires Can(s, DestroyConsumer(c)) && Owns(s, c, s.clients[c])
    ensures var k := s.clients[c];
      Goes(s, DestroyConsumer(c), Became(s, c, k.(kf := NULL, stage := Finished)).(handles := s.handles - {k.rk}))
  {
  }

  /** Theorem. cleanup_consumer: the set empty, the handle destroyed and forgotten. */
  lemma CleanupConsumerInOneGo(s: Sys, c: Id)
    requires Reachable(s) && Can(s, ClearAll(c))
    ensures var k := s.clients[c];
      RunsTo(s, [ClearAll(c), CloseConsumer(c), DestroyConsumer(c)],
        Became(s, c, CleanedUp(k)).(handles := s.handles - {k.rk}))
  {
    OpenFacts(s, c);
    ClearStep(s, c);
    var k := s.clients[c];
    var k1, k2 := k.(qset := {}, stage := Cleared), k.(qset := {}, stage := Closed);
    hide Reachable, Goes, RunsTo;
    CloseStep(Became(s, c, k1), c);
    BecameTwice(s, c, k1, k2);
    DestroyStep(Became(s, c, k2), c);
    BecameTwice(s, c, k2, CleanedUp(k));
    ThreeSteps(s, ClearAll(c), Became(s, c, k1), CloseConsumer(c), Became(s, c, k2), DestroyConsumer(c),
               Became(s, c, CleanedUp(k)).(handles := s.handles - {k.rk}));
  }

  lemma FlushStep(s: Sys, c: Id)
    requires Can(s, Flush(c)) && Owns(s, c, s.clients[c])
    ensures Goes(s, Flush(c), Became(s, c, s.clients[c].(stage := Finished)))
  {
  }

  lemma FreeStep(s: Sys, c: Id)
    requires Can(s, FreeClient(c)) && s.clients[c].kind.Producer? && Owns(s, c, s.clients[c])
    ensures Goes(s, FreeClient(c), Became(s, c, Ended(s.clients[c])).(handles := s.handles - {s.clients[c].rk}))
  {
  }

  /** Theorem. enif_producer_free for a producer that cleanup was not called for: out of the table,
      flushed, destroyed. */
  lemma ProducerFreeInOneGo(s: Sys, c: Id)
    requires Reachable(s) && s.disp.Idle? && Is(s, c, Producer, Active) && Collected(s.clients[c])
    ensures var k := s.clients[c];
      RunsTo(s, [Unwatch(c), Flush(c), FreeClient(c)],
        Forgotten(Became(s, c, Ended(k)).(handles := s.handles - {k.rk}), k.rk))
  {
    OpenFacts(s, c);
    var k := s.clients[c];
    var k1, k2 := k.(stage := Unwatched), k.(stage := Finished);
    hide Reachable, Goes, RunsTo;
    UnwatchStep(s, c);
    var s1, s2 := Forgotten(Became(s, c, k1), k.rk), Forgotten(Became(s, c, k2), k.rk);
    BecameTwice(s, c, k1, k2);
    FlushStep(s1, c);
    BecameTwice(s, c, k2, Ended(k));
    FreeStep(s2, c);
    ThreeSteps(s, Unwatch(c), s1, Flush(c), s2, FreeClient(c),
      Forgotten(Became(s, c, Ended(k)).(handles := s.handles - {k.rk}), k.rk));
  }

  /** Theorem. enif_producer_free once the asynchronous cleanup is over. */
  lemma CleanedProducerFreeInOneGo(s: Sys, c: Id)
    requires Reachable(s) && Can(s, FreeClient(c)) && s.clients[c].kind.Producer?
    ensures var k := s.clients[c]; RunsTo(s, [FreeClient(c)], Became(s, c, Ended(k)).(handles := s.handles - {k.rk}))
  {
    OpenFacts(s, c);
    FreeStep(s, c);
    var t := Became(s, c, Ended(s.clients[c])).(handles := s.handles - {s.clients[c].rk});
    assert RunsTo(t, [], t) && [FreeClient(c)] + [] == [FreeClient(c)];
    hide Reachable, Goes, RunsTo;
    OneStep(s, FreeClient(c), t, [], t);
  }

  // ------------------------------------------------------------------------ queue resources

  /** The state after remove, for a resource that may call it. */
  lemma RemoveShape(s: Sys, r: Id)
    requires Reachable(s) && r in s.queues && !s.queues[r].cleaning && !s.queues[r].freeing
    ensures var (c, p) := (s.queues[r].client, s.queues[r].queue);
      && c in s.clients && s.clients[c].refs > 0
      && RemoveQueue(s, r) == Became(s, c, WithoutQueue(s.clients[c], p))
                              .(live := if p in s.clients[c].qset then s.live - {p} else s.live)
  {
    ReachableInv(s);
    RemoveIsFine(s, r);
    RemoveQueueIs(s, r);
    ResourceKeepsClient(s, r);
    hide Inv, Bad, Gone, RemoveQueue, RemoveCalls;
    var (c, p) := (s.queues[r].client, s.queues[r].queue);
    if p !in s.clients[c].qset {
      assert s.clients[c].qset - {p} == s.clients[c].qset;
      assert s.clients[c := s.clients[c]] == s.clients;
    }
  }

  lemma CleanupStep(s: Sys, r: Id)
    requires Can(s, CleanupRemove(r))
    ensures Goes(s, CleanupRemove(r), SetQueue(RemoveQueue(s, r), r, s.queues[r].(cleaning := true)))
  {
    hide RemoveQueue;
  }

  lemma ForgetStep(s: Sys, r: Id)
    requires Can(s, CleanupForget(r))
    ensures Goes(s, CleanupForget(r), SetQueue(s, r, s.queues[r].(queue := NULL, cleaning := false)))
  {
  }

  /** Theorem. enif_consumer_queue_cleanup: the queue out of the set, destroyed if it was in it, and
      the resource holds NULL. */
  lemma QueueCleanupInOneGo(s: Sys, r: Id)
    requires Reachable(s) && Can(s, CleanupRemove(r)) && !s.queues[r].freeing
    ensures var (c, p) := (s.queues[r].client, s.queues[r].queue);
      && c in s.clients
      && RunsTo(s, [CleanupRemove(r), CleanupForget(r)],
                Became(s, c, WithoutQueue(s.clients[c], p)).(queues := s.queues[r := s.queues[r].(queue := NULL)],
                  live := if p in s.clients[c].qset then s.live - {p} else s.live))
  {
    RemoveShape(s, r);
    hide RemoveQueue, Reachable, Goes, RunsTo;
    var q, s0 := s.queues[r], RemoveQueue(s, r);
    var s1, s2 := SetQueue(s0, r, q.(cleaning := true)), SetQueue(s0, r, q.(queue := NULL));
    CleanupStep(s, r);
    assert s1.queues[r := q.(queue := NULL)] == s2.queues;
    ForgetStep(s1, r);
    TwoSteps(s, CleanupRemove(r), s1, CleanupForget(r), s2);
  }

  lemma FreeRemoveStep(s: Sys, r: Id)
    requires Can(s, FreeRemove(r))
    ensures Goes(s, FreeRemove(r),
                 SetQueue(if s.queues[r].queue != NULL then RemoveQueue(s, r) else s, r, s.queues[r].(freeing := true)))
  {
    hide RemoveQueue;
  }

  lemma ReleaseStep(s: Sys, r: Id, q: QRes)
    requires r in s.queues && q.freeing && q.client in s.clients && s.clients[q.client].refs > 0
    ensures Goes(SetQueue(s, r, q), FreeRelease(r),
                 Became(s, q.client, Released(s.clients[q.client])).(queues := s.queues - {r}))
  {
    assert s.queues[r := q] - {r} == s.queues - {r};
    hide OnNew, OnWatch, OnDequeue, OnStartAssign, OnGetPartitionQueue, OnKeep, OnAdd, OnMakeResource, OnUnwatch,
      OnClearAll, OnDropClient, OnCloseCallback, OnDestroyConsumer, OnFreeClient, OnCleanupRemove, OnFreeRemove;
  }

  /** Theorem. enif_queue_free: the same for a resource that still holds a queue, then the resource
      is gone and its consumer has one reference less. */
  lemma QueueFreeInOneGo(s: Sys, r: Id)
    requires Reachable(s) && Can(s, FreeRemove(r)) && !s.queues[r].cleaning
    ensures var (c, p) := (s.queues[r].client, s.queues[r].queue);
      && c in s.clients && s.clients[c].refs > 0
      && var k := if p != NULL then WithoutQueue(s.clients[c], p) else s.clients[c];
      RunsTo(s, [FreeRemove(r), FreeRelease(r)],
             Became(s, c, Released(k)).(queues := s.queues - {r},
               live := if p != NULL && p in s.clients[c].qset then s.live - {p} else s.live))
  {
    RemoveShape(s, r);
    hide RemoveQueue, Reachable, Goes, RunsTo;
    var (c, p, q) := (s.queues[r].client, s.queues[r].queue, s.queues[r].(freeing := true));
    var s0 := if p != NULL then RemoveQueue(s, r) else s;
    FreeRemoveStep(s, r);
    ReleaseStep(s0, r, q);
    TwoSteps(s, FreeRemove(r), SetQueue(s0, r, q), FreeRelease(r),
             Became(s0, c, Released(s0.clients[c])).(queues := s.queues - {r}));
    BecameTwice(s, c, s0.clients[c], Released(s0.clients[c]));
  }
}
