/**
  Every step keeps the invariant of module HandleLifetime, and what follows for every run.
 */
module HandleSteps {
  import opened QueueManager
  import opened HandleLifetime

  // ------------------------------------------------------------- replacing one client

  /** The same client further on: it may have less in its set, and may have left the table. */
  ghost predicate Later(s: Sys, c: Id, k: Client) {
    && c in s.clients && var k0 := s.clients[c];
    && k == k0.(stage := k.stage, running := k.running, qset := k.qset) && k.qset <= k0.qset
    && Open(k) == Open(k0) && StageOk(k)
    && (IsWatched(k0) && !IsWatched(k) ==> k0.rk !in s.table && (s.disp.Idle? || s.disp.client != c))
    && (s.disp.Added? && s.disp.client == c ==> k.qset == k0.qset)
  }

  lemma LaterKeepsHandles(s: Sys, c: Id, k: Client)
    requires HandlesOk(s.clients, s.handles) && TableOk(s.table, s.handles, s.clients) && Later(s, c, k)
    ensures HandlesOk(s.clients[c := k], s.handles) && TableOk(s.table, s.handles, s.clients[c := k])
  {
    forall a | a in s.table ensures IsWatched(s.clients[c := k][s.handles[a]]) {
    }
  }

  lemma LaterKeepsDisp(s: Sys, c: Id, k: Client)
    requires DispOk(s.disp, s.clients, s.queues, s.live, s.nextId) && Later(s, c, k)
    ensures DispOk(s.disp, s.clients[c := k], s.queues, s.live, s.nextId)
  {
  }

  lemma LaterKeepsRest(s: Sys, c: Id, k: Client)
    requires Inv(s) && Later(s, c, k)
    ensures var clients := s.clients[c := k];
      && StagesOk(clients) && ResourcesOk(s.queues, clients, s.live) && SetsOk(clients, s.disp, s.queues, s.live)
      && IdsOk(clients, s.queues, s.live, s.nextId) && RefsOk(clients, s.queues, s.disp)
  {
    hide HandlesOk, TableOk, DispOk, StageOk, Owned;
  }

  lemma LaterKeeps(s: Sys, c: Id, k: Client)
    requires Inv(s) && Later(s, c, k)
    ensures Inv(SetClient(s, c, k))
  {
    LaterKeepsHandles(s, c, k);
    LaterKeepsDisp(s, c, k);
    LaterKeepsRest(s, c, k);
    hide HandlesOk, TableOk, DispOk, StagesOk, ResourcesOk, SetsOk, IdsOk, RefsOk, Later;
  }

  /** The reference count and who holds the client change together. */
  lemma CountKeeps(s: Sys, c: Id, k: Client)
    requires HandlesOk(s.clients, s.handles) && TableOk(s.table, s.handles, s.clients)
    requires DispOk(s.disp, s.clients, s.queues, s.live, s.nextId) && StagesOk(s.clients)
    requires ResourcesOk(s.queues, s.clients, s.live) && SetsOk(s.clients, s.disp, s.queues, s.live)
    requires IdsOk(s.clients, s.queues, s.live, s.nextId)
    requires c in s.clients && k == s.clients[c].(refs := k.refs, held := k.held) && StageOk(k)
    ensures var clients := s.clients[c := k];
      && HandlesOk(clients, s.handles) && TableOk(s.table, s.handles, clients)
      && DispOk(s.disp, clients, s.queues, s.live, s.nextId) && StagesOk(clients)
      && ResourcesOk(s.queues, clients, s.live) && SetsOk(clients, s.disp, s.queues, s.live)
      && IdsOk(clients, s.queues, s.live, s.nextId)
  {
    hide StageOk, Owned;
  }

  // --------------------------------------------------------------------- the dispatcher

  lemma NewKeepsHandles(s: Sys, kind: Kind, addr: Addr)
    requires Inv(s) && Can(s, New(kind, addr))
    ensures var s' := OnNew(s, kind, addr);
      HandlesOk(s'.clients, s'.handles) && TableOk(s'.table, s'.handles, s'.clients)
  {
  }

  lemma NewKeepsQueues(s: Sys, c: Id, k: Client)
    requires Inv(s) && c !in s.clients && c == s.nextId && k.qset == {} && StageOk(k) && k.refs == One(k.held)
    ensures var clients := s.clients[c := k];
      && DispOk(s.disp, clients, s.queues, s.live, c + 1) && StagesOk(clients)
      && ResourcesOk(s.queues, clients, s.live) && SetsOk(clients, s.disp, s.queues, s.live)
      && IdsOk(clients, s.queues, s.live, c + 1) && RefsOk(clients, s.queues, s.disp)
  {
    hide HandlesOk, TableOk, StageOk, Owned;
    assert forall r :: r in s.queues ==> s.queues[r].client in s.clients;
    assert QueuesOf(s.queues, c) == {};
  }

  lemma NewKeeps(s: Sys, kind: Kind, addr: Addr)
    requires Inv(s) && Can(s, New(kind, addr))
    ensures Inv(OnNew(s, kind, addr))
  {
    var k := Client(kind, addr, addr, true, {}, 1, true, Created);
    NewKeepsHandles(s, kind, addr);
    NewIsOk(kind, addr);
    assert s.nextId !in s.clients;
    hide HandlesOk, TableOk, DispOk, StagesOk, ResourcesOk, SetsOk, IdsOk, RefsOk, StageOk;
    NewKeepsQueues(s, s.nextId, k);
  }

  lemma NewIsOk(kind: Kind, addr: Addr)
    ensures StageOk(Client(kind, addr, addr, true, {}, 1, true, Created))
  {
  }

  lemma WatchKeepsTable(s: Sys, c: Id, k: Client)
    requires TableOk(s.table, s.handles, s.clients) && c in s.clients && !Dead(s, c, k.kf) && IsWatched(k)
    ensures TableOk(s.table + {k.kf}, s.handles, s.clients[c := k])
  {
  }

  lemma WatchKeeps(s: Sys, c: Id)
    requires Inv(s) && Can(s, Watch(c))
    ensures Inv(OnWatch(s, c))
  {
    var k := s.clients[c].(stage := Active);
    LaterKeeps(s, c, k);
    HandleOf(s, c);
    WatchKeepsTable(s, c, k);
    hide HandlesOk, TableOk, DispOk, StagesOk, ResourcesOk, SetsOk, IdsOk, RefsOk;
  }

  lemma KeepConsumerKeeps(s: Sys)
    requires Inv(s) && Can(s, KeepConsumer)
    ensures Inv(OnKeep(s))
  {
    var c := s.disp.client;
    var k := s.clients[c].(refs := s.clients[c].refs + 1);
    assert s.clients[c].held && s.clients[c].refs > 0;
    CountKeeps(s, c, k);
    KeptIsAsGot(s, c, k);
    hide HandlesOk, TableOk, DispOk, StagesOk, ResourcesOk, SetsOk, IdsOk, RefsOk;
  }

  lemma KeptIsAsGot(s: Sys, c: Id, k: Client)
    requires s.disp.Got? && s.disp.client == c && c in s.clients && k == s.clients[c].(refs := s.clients[c].refs + 1)
    requires DispOk(s.disp, s.clients[c := k], s.queues, s.live, s.nextId)
    requires SetsOk(s.clients[c := k], s.disp, s.queues, s.live) && RefsOk(s.clients, s.queues, s.disp)
    ensures var disp := Kept(c, s.disp.queue, s.disp.res);
      && DispOk(disp, s.clients[c := k], s.queues, s.live, s.nextId)
      && SetsOk(s.clients[c := k], disp, s.queues, s.live)
      && RefsOk(s.clients[c := k], s.queues, disp)
  {
    hide QueuesOf;
  }

  /** A queue whose resource does not exist yet is in no set. */
  lemma NotYetInSet(s: Sys)
    requires Inv(s) && (s.disp.Got? || s.disp.Kept?)
    ensures forall c :: c in s.clients ==> s.disp.queue !in s.clients[c].qset
  {
  }

  lemma AddQueueKeepsSets(s: Sys)
    requires Inv(s) && Can(s, AddQueue)
    ensures var (c, k) := (s.disp.client, s.clients[s.disp.client]);
      OnAdd(s).clients == s.clients[c := k.(qset := k.qset + {s.disp.queue})]
    ensures var s' := OnAdd(s);
      && !s'.fault && SetsOk(s'.clients, s'.disp, s'.queues, s'.live) && StagesOk(s'.clients)
      && DispOk(s'.disp, s'.clients, s'.queues, s'.live, s'.nextId)
  {
    NotYetInSet(s);
    WhenDetachIsBad(s, s.disp.client, 0, s.disp.queue);
    hide Bad, HandlesOk, TableOk, ResourcesOk, RefsOk, IdsOk;
  }

  lemma AddQueueKeeps(s: Sys)
    requires Inv(s) && Can(s, AddQueue)
    ensures Inv(OnAdd(s))
  {
    AddQueueKeepsSets(s);
    var c := s.disp.client;
    var k := s.clients[c].(qset := s.clients[c].qset + {s.disp.queue});
    SetChangeKeeps(s, c, k);
    hide HandlesOk, TableOk, StagesOk, ResourcesOk, SetsOk, IdsOk;
    assert RefsOk(s.clients[c := k], s.queues, Added(c, s.disp.queue, s.disp.res)) by { hide DispOk; }
    hide RefsOk, DispOk;
  }

  /** What does not depend on a client's set. */
  lemma SetChangeKeeps(s: Sys, c: Id, k: Client)
    requires Inv(s) && c in s.clients && k == s.clients[c].(qset := k.qset)
    ensures HandlesOk(s.clients[c := k], s.handles) && TableOk(s.table, s.handles, s.clients[c := k])
    ensures ResourcesOk(s.queues, s.clients[c := k], s.live) && IdsOk(s.clients[c := k], s.queues, s.live, s.nextId)
    ensures RefsOk(s.clients[c := k], s.queues, s.disp)
  {
    hide DispOk, StagesOk, SetsOk, QueuesOf;
  }

  lemma AnotherQueue(queues: map<Id, QRes>, r: Id, q: QRes, c: Id)
    requires r !in queues
    ensures |QueuesOf(queues[r := q], c)| == |QueuesOf(queues, c)| + One(q.client == c)
  {
    assert QueuesOf(queues[r := q], c) == QueuesOf(queues, c) + if q.client == c then {r} else {};
  }

  lemma MakeResourceKeepsRefs(s: Sys)
    requires Inv(s) && Can(s, MakeResource)
    ensures var s' := OnMakeResource(s); RefsOk(s'.clients, s'.queues, s'.disp)
  {
    var s' := OnMakeResource(s);
    forall c | c in s'.clients
      ensures s'.clients[c].refs == One(s'.clients[c].held) + |QueuesOf(s'.queues, c)| + One(Keeps(s'.disp, c))
    {
      AnotherQueue(s.queues, s.disp.res, s'.queues[s.disp.res], c);
    }
  }

  lemma MakeResourceKeepsOwners(s: Sys)
    requires Inv(s) && Can(s, MakeResource)
    ensures var s' := OnMakeResource(s);
      && DispOk(s'.disp, s'.clients, s'.queues, s'.live, s'.nextId) && ResourcesOk(s'.queues, s'.clients, s'.live)
      && SetsOk(s'.clients, s'.disp, s'.queues, s'.live) && IdsOk(s'.clients, s'.queues, s'.live, s'.nextId)
  {
    hide RefsOk, HandlesOk, TableOk, StagesOk;
  }

  lemma MakeResourceKeeps(s: Sys)
    requires Inv(s) && Can(s, MakeResource)
    ensures Inv(OnMakeResource(s))
  {
    MakeResourceKeepsRefs(s);
    MakeResourceKeepsOwners(s);
    hide HandlesOk, TableOk, DispOk, StagesOk, ResourcesOk, SetsOk, IdsOk, RefsOk;
  }

  // ------------------------------------------------------------------ consumer, producer

  lemma LowerFlagKeeps(s: Sys, c: Id)
    requires Inv(s) && Can(s, LowerFlag(c))
    ensures Inv(SetClient(s, c, s.clients[c].(running := false, stage := FlagDown)))
  {
    LaterKeeps(s, c, s.clients[c].(running := false, stage := FlagDown));
    hide Inv;
  }

  lemma UnwatchKeeps(s: Sys, c: Id)
    requires Inv(s) && Can(s, Unwatch(c))
    ensures Inv(OnUnwatch(s, c))
  {
    var k := s.clients[c];
    var t := s.(table := s.table - {k.kf}, events := s.events + if k.kf in s.table then [NULL] else []);
    assert k.kf == k.rk && Inv(t) by {
      hide HandlesOk, DispOk, StageOk, ResourcesOk, SetsOk, IdsOk, RefsOk;
      HandleOf(s, c);
    }
    LaterKeeps(t, c, k.(stage := Unwatched));
    hide Inv;
  }

  /** An open client's handle is its own. */
  lemma HandleOf(s: Sys, c: Id)
    requires Inv(s) && c in s.clients && Open(s.clients[c])
    ensures s.clients[c].kf == s.clients[c].rk && !Dead(s, c, s.clients[c].rk)
  {
  }

  lemma LaunchKeeps(s: Sys, c: Id)
    requires Inv(s) && Can(s, Launch(c))
    ensures Inv(SetStage(s, c, Closing))
  {
    LaterKeeps(s, c, s.clients[c].(stage := Closing));
    hide Inv;
  }

  /** A step that goes through librdkafka with the client's own handle. */
  lemma HandleStepKeeps(s: Sys, c: Id, stage: Stage)
    requires Inv(s) && c in s.clients && Open(s.clients[c])
    requires Later(s, c, s.clients[c].(stage := stage))
    ensures Inv(Blame(SetStage(s, c, stage), Dead(s, c, s.clients[c].kf)))
  {
    HandleOf(s, c);
    LaterKeeps(s, c, s.clients[c].(stage := stage));
    hide Later;
  }

  lemma CloseConsumerKeeps(s: Sys, c: Id)
    requires Inv(s) && Can(s, CloseConsumer(c))
    ensures Inv(Blame(SetStage(s, c, Closed), Dead(s, c, s.clients[c].kf)))
  {
    HandleStepKeeps(s, c, Closed);
    hide Inv;
  }

  lemma FlushKeeps(s: Sys, c: Id)
    requires Inv(s) && Can(s, Flush(c))
    ensures Inv(Blame(SetStage(s, c, Finished), Dead(s, c, s.clients[c].kf)))
  {
    HandleStepKeeps(s, c, Finished);
    hide Inv;
  }

  lemma ClearAllIsFine(s: Sys, c: Id)
    requires Inv(s) && Can(s, ClearAll(c))
    ensures !exists order :: Lists(order, s.clients[c].qset) && Bad(s, c, 0, ClearCalls(s.clients[c].rk, order))
  {
    HandleOf(s, c);
    forall order | Lists(order, s.clients[c].qset) ensures !Bad(s, c, 0, ClearCalls(s.clients[c].rk, order)) {
      SetIsLive(s, c);
      ClearIsAdmissible(WorldOf(s, c, 0), s.clients[c].rk, order);
    }
  }

  lemma SetIsLive(s: Sys, c: Id)
    requires SetsOk(s.clients, s.disp, s.queues, s.live) && c in s.clients
    ensures forall q :: q in s.clients[c].qset ==> q in s.live
  {
    forall q | q in s.clients[c].qset ensures q in s.live {
      assert Owned(c, q, s.disp, s.queues, s.live);
    }
  }

  lemma ClearAllKeeps(s: Sys, c: Id)
    requires Inv(s) && Can(s, ClearAll(c))
    ensures Inv(OnClearAll(s, c))
  {
    ClearAllIsFine(s, c);
    LaterKeeps(s, c, s.clients[c].(qset := {}, stage := Cleared));
    hide Inv, Bad;
  }

  /** Destroying the handle, and with it the client's name for it. */
  lemma EndOfHandle(s: Sys, c: Id, k: Client)
    requires Inv(s) && c in s.clients && Open(s.clients[c]) && !IsWatched(s.clients[c]) && !Open(k) && StageOk(k)
    requires k == s.clients[c].(kf := k.kf, stage := k.stage) && (k.kind.Consumer? ==> k.kf == NULL) && k.qset == {}
    ensures Inv(SetClient(s, c, k).(handles := s.handles - {s.clients[c].kf}))
  {
    HandleOf(s, c);
    EndKeepsHandles(s, c, k);
    EndKeepsRest(s, c, k);
    hide HandlesOk, TableOk, DispOk, StagesOk, ResourcesOk, SetsOk, IdsOk, RefsOk, StageOk;
  }

  lemma EndKeepsRest(s: Sys, c: Id, k: Client)
    requires Inv(s) && c in s.clients && !IsWatched(s.clients[c]) && StageOk(k)
    requires k == s.clients[c].(kf := k.kf, stage := k.stage) && k.qset == {}
    ensures var clients := s.clients[c := k];
      && DispOk(s.disp, clients, s.queues, s.live, s.nextId) && StagesOk(clients)
      && ResourcesOk(s.queues, clients, s.live) && SetsOk(clients, s.disp, s.queues, s.live)
      && IdsOk(clients, s.queues, s.live, s.nextId) && RefsOk(clients, s.queues, s.disp)
  {
    hide HandlesOk, TableOk, StageOk, Owned;
  }

  lemma EndKeepsHandles(s: Sys, c: Id, k: Client)
    requires HandlesOk(s.clients, s.handles) && TableOk(s.table, s.handles, s.clients)
    requires c in s.clients && Open(s.clients[c]) && !IsWatched(s.clients[c]) && !Open(k)
    requires k == s.clients[c].(kf := k.kf, stage := k.stage) && (k.kind.Consumer? ==> k.kf == NULL)
    ensures var handles := s.handles - {s.clients[c].kf};
      HandlesOk(s.clients[c := k], handles) && TableOk(s.table, handles, s.clients[c := k])
  {
  }

  lemma DestroyConsumerKeeps(s: Sys, c: Id)
    requires Inv(s) && Can(s, DestroyConsumer(c))
    ensures Inv(OnDestroyConsumer(s, c))
  {
    HandleOf(s, c);
    EndOfHandle(s, c, s.clients[c].(kf := NULL, stage := Finished));
    hide HandlesOk, TableOk, DispOk, StagesOk, ResourcesOk, SetsOk, IdsOk, RefsOk;
  }

  lemma FreeConsumerKeeps(s: Sys, c: Id)
    requires Inv(s) && Can(s, FreeClient(c)) && s.clients[c].kind.Consumer?
    ensures Inv(OnFreeClient(s, c))
  {
    assert s.clients[c].kf == NULL && s.clients[c].qset == {};
    LaterKeeps(s, c, s.clients[c].(stage := Freed));
    hide HandlesOk, TableOk, DispOk, StagesOk, ResourcesOk, SetsOk, IdsOk, RefsOk;
  }

  lemma FreeProducerKeeps(s: Sys, c: Id)
    requires Inv(s) && Can(s, FreeClient(c)) && s.clients[c].kind.Producer?
    ensures Inv(OnFreeClient(s, c))
  {
    HandleOf(s, c);
    EndOfHandle(s, c, s.clients[c].(stage := Freed));
    hide HandlesOk, TableOk, DispOk, StagesOk, ResourcesOk, SetsOk, IdsOk, RefsOk;
  }

  lemma DropKeepsRefs(s: Sys, c: Id)
    requires RefsOk(s.clients, s.queues, s.disp) && c in s.clients && s.clients[c].held && s.clients[c].refs > 0
    ensures RefsOk(s.clients[c := s.clients[c].(refs := s.clients[c].refs - 1, held := false)], s.queues, s.disp)
  {
    hide QueuesOf;
  }

  lemma DropClientIs(s: Sys, c: Id)
    requires c in s.clients && s.clients[c].refs > 0
    ensures OnDropClient(s, c) == SetClient(s, c, s.clients[c].(refs := s.clients[c].refs - 1, held := false))
  {
  }

  lemma HeldIsCounted(s: Sys, c: Id)
    requires RefsOk(s.clients, s.queues, s.disp) && c in s.clients && s.clients[c].held
    ensures s.clients[c].refs > 0
  {
  }

  lemma DropClientKeeps(s: Sys, c: Id)
    requires Inv(s) && Can(s, DropClient(c))
    ensures Inv(OnDropClient(s, c))
  {
    hide HandlesOk, TableOk, DispOk, ResourcesOk, SetsOk, IdsOk, RefsOk, OnDropClient;
    var k := s.clients[c];
    HeldIsCounted(s, c);
    assert StageOk(k);
    CountKeeps(s, c, k.(refs := k.refs - 1, held := false));
    DropKeepsRefs(s, c);
    DropClientIs(s, c);
  }

  // --------------------------------------------------------------------- queue resources

  /** The same resource, about the same queue. */
  ghost predicate StillOk(s: Sys, r: Id, q: QRes) {
    && r in s.queues && q.client == s.queues[r].client
    && ResourceOk(q, r, s.clients, s.live)
    && (q.queue == s.queues[r].queue || s.queues[r].cleaning || s.queues[r].freeing)
    && (q.cleaning || q.freeing ==> s.queues[r].cleaning || s.queues[r].freeing
                                    || forall c :: c in s.clients ==> s.queues[r].queue !in s.clients[c].qset)
  }

  lemma SetQueueKeepsRefs(s: Sys, r: Id, q: QRes)
    requires RefsOk(s.clients, s.queues, s.disp) && r in s.queues && q.client == s.queues[r].client
    ensures RefsOk(s.clients, s.queues[r := q], s.disp)
  {
    forall c ensures QueuesOf(s.queues[r := q], c) == QueuesOf(s.queues, c) {
    }
  }

  lemma SetQueueKeepsSets(s: Sys, r: Id, q: QRes)
    requires SetsOk(s.clients, s.disp, s.queues, s.live) && StillOk(s, r, q)
    ensures SetsOk(s.clients, s.disp, s.queues[r := q], s.live)
  {
    forall c, p | c in s.clients && p in s.clients[c].qset ensures Owned(c, p, s.disp, s.queues[r := q], s.live) {
      assert Owned(c, p, s.disp, s.queues, s.live);
    }
  }

  lemma SetQueueKeeps(s: Sys, r: Id, q: QRes)
    requires Inv(s) && StillOk(s, r, q)
    ensures Inv(SetQueue(s, r, q))
  {
    SetQueueKeepsRefs(s, r, q);
    SetQueueKeepsSets(s, r, q);
    hide RefsOk, SetsOk, HandlesOk, TableOk, StagesOk;
  }

  lemma CleanupForgetKeeps(s: Sys, r: Id)
    requires Inv(s) && Can(s, CleanupForget(r))
    ensures Inv(SetQueue(s, r, s.queues[r].(queue := NULL, cleaning := false)))
  {
    SetQueueKeeps(s, r, s.queues[r].(queue := NULL, cleaning := false));
    hide Inv;
  }

  lemma DropQueueKeeps(s: Sys, r: Id)
    requires Inv(s) && Can(s, DropQueue(r))
    ensures Inv(SetQueue(s, r, s.queues[r].(held := false)))
  {
    SetQueueKeeps(s, r, s.queues[r].(held := false));
    hide Inv;
  }

  /** A queue in a set is there for the one resource that still holds it. */
  lemma SetMemberIsOwn(s: Sys, r: Id, c: Id)
    requires Inv(s) && r in s.queues && !s.queues[r].cleaning && !s.queues[r].freeing
    requires c in s.clients && s.queues[r].queue in s.clients[c].qset
    ensures c == s.queues[r].client && s.queues[r].queue in s.live && s.live[s.queues[r].queue] == r
    ensures Open(s.clients[c]) && s.disp != Added(c, s.queues[r].queue, r)
  {
    var p := s.queues[r].queue;
    assert Owned(c, p, s.disp, s.queues, s.live);
    assert ResourceOk(s.queues[r], r, s.clients, s.live) && StageOk(s.clients[c]);
  }

  /** remove for a resource that holds its queue, or NULL, asks nothing amiss. */
  lemma RemoveIsFine(s: Sys, r: Id)
    requires Inv(s) && r in s.queues && !s.queues[r].cleaning && !s.queues[r].freeing
    ensures var (c, q) := (s.queues[r].client, s.queues[r].queue);
      && c in s.clients && !Gone(s, c)
      && !Bad(s, c, r, RemoveCalls(s.clients[c].rk, s.clients[c].qset, q))
  {
    var (c, q) := (s.queues[r].client, s.queues[r].queue);
    assert ResourceOk(s.queues[r], r, s.clients, s.live);
    ResourceKeepsClient(s, r);
    RemoveIsAdmissible(WorldOf(s, c, r), s.clients[c].rk, s.clients[c].qset, q);
    if q in s.clients[c].qset {
      SetMemberIsOwn(s, r, c);
      HandleOf(s, c);
    }
  }

  /** A queue resource keeps its consumer's memory. */
  lemma ResourceKeepsClient(s: Sys, r: Id)
    requires Inv(s) && r in s.queues
    ensures s.queues[r].client in s.clients && s.clients[s.queues[r].client].refs >= 1
    ensures !s.clients[s.queues[r].client].stage.Freed?
  {
    var c := s.queues[r].client;
    assert ResourceOk(s.queues[r], r, s.clients, s.live);
    assert r in QueuesOf(s.queues, c);
    assert StageOk(s.clients[c]);
  }

  /** After remove the queue is destroyed if it was in the set, and in no set in any case. */
  lemma RemoveKeeps(s: Sys, r: Id, q: QRes)
    requires Inv(s) && r in s.queues && !s.queues[r].cleaning && !s.queues[r].freeing
    requires (q == s.queues[r].(cleaning := true) && q.held) || (q == s.queues[r].(freeing := true) && !q.held)
    ensures Inv(SetQueue(RemoveQueue(s, r), r, q))
  {
    hide Bad, RemoveQueue, RemoveCalls;
    RemoveIsFine(s, r);
    RemoveQueueIs(s, r);
    var (c, p) := (s.queues[r].client, s.queues[r].queue);
    if p in s.clients[c].qset {
      SetMemberIsOwn(s, r, c);
      RemovePresentKeeps(s, r, q);
    } else {
      forall x | x in s.clients ensures p !in s.clients[x].qset {
        if p in s.clients[x].qset { SetMemberIsOwn(s, r, x); }
      }
      assert ResourceOk(s.queues[r], r, s.clients, s.live);
      SetQueueKeeps(s, r, q);
      hide Inv;
    }
  }

  lemma RemovePresentKeepsSets(s: Sys, r: Id, q: QRes, clients: map<Id, Client>)
    requires Inv(s) && r in s.queues && s.queues[r].queue in s.live && s.live[s.queues[r].queue] == r
    requires var (c, p) := (s.queues[r].client, s.queues[r].queue);
      c in s.clients && clients == s.clients[c := s.clients[c].(qset := s.clients[c].qset - {p})]
    requires !s.queues[r].cleaning && !s.queues[r].freeing
    ensures SetsOk(clients, s.disp, s.queues[r := q], s.live - {s.queues[r].queue})
  {
    var p0 := s.queues[r].queue;
    forall c, p | c in clients && p in clients[c].qset
      ensures Owned(c, p, s.disp, s.queues[r := q], s.live - {p0})
    {
      assert c in s.clients && p in s.clients[c].qset;
      assert Owned(c, p, s.disp, s.queues, s.live);
      if p == p0 { SetMemberIsOwn(s, r, c); }
    }
  }

  lemma RemovePresentKeepsRest(s: Sys, r: Id, q: QRes, clients: map<Id, Client>)
    requires Inv(s) && r in s.queues && s.queues[r].queue in s.live && s.live[s.queues[r].queue] == r
    requires var (c, p) := (s.queues[r].client, s.queues[r].queue);
      c in s.clients && clients == s.clients[c := s.clients[c].(qset := s.clients[c].qset - {p})]
    requires (q == s.queues[r].(cleaning := true) && q.held) || (q == s.queues[r].(freeing := true) && !q.held)
    requires !s.queues[r].cleaning && !s.queues[r].freeing
    ensures ResourcesOk(s.queues[r := q], clients, s.live - {s.queues[r].queue})
    ensures DispOk(s.disp, clients, s.queues[r := q], s.live - {s.queues[r].queue}, s.nextId)
    ensures StagesOk(clients) && IdsOk(clients, s.queues[r := q], s.live - {s.queues[r].queue}, s.nextId)
  {
    hide HandlesOk, TableOk, RefsOk, SetsOk;
  }

  lemma RemovePresentKeeps(s: Sys, r: Id, q: QRes)
    requires Inv(s) && r in s.queues && s.queues[r].queue in s.live && s.live[s.queues[r].queue] == r
    requires var c := s.queues[r].client; c in s.clients && s.queues[r].queue in s.clients[c].qset && !Gone(s, c)
    requires var c := s.queues[r].client;
      !Bad(s, c, r, RemoveCalls(s.clients[c].rk, s.clients[c].qset, s.queues[r].queue))
    requires (q == s.queues[r].(cleaning := true) && q.held) || (q == s.queues[r].(freeing := true) && !q.held)
    requires !s.queues[r].cleaning && !s.queues[r].freeing
    ensures Inv(SetQueue(RemoveQueue(s, r), r, q))
  {
    hide RemoveQueue, RemoveCalls;
    RemoveQueueIs(s, r);
    var (c, p) := (s.queues[r].client, s.queues[r].queue);
    var k := s.clients[c].(qset := s.clients[c].qset - {p});
    RemovePresentKeepsSets(s, r, q, s.clients[c := k]);
    RemovePresentKeepsRest(s, r, q, s.clients[c := k]);
    SetChangeKeeps(s, c, k);
    SetQueueKeepsRefs(SetClient(s, c, k), r, q);
    hide HandlesOk, TableOk, DispOk, StagesOk, ResourcesOk, SetsOk, IdsOk, RefsOk, Bad, Gone;
  }

  lemma CleanupRemoveKeeps(s: Sys, r: Id)
    requires Inv(s) && Can(s, CleanupRemove(r))
    ensures Inv(OnCleanupRemove(s, r))
  {
    assert ResourceOk(s.queues[r], r, s.clients, s.live);
    RemoveKeeps(s, r, s.queues[r].(cleaning := true));
    hide Inv, RemoveQueue;
  }

  lemma FreeRemoveKeeps(s: Sys, r: Id)
    requires Inv(s) && Can(s, FreeRemove(r))
    ensures Inv(OnFreeRemove(s, r))
  {
    assert ResourceOk(s.queues[r], r, s.clients, s.live);
    if s.queues[r].queue != NULL {
      RemoveKeeps(s, r, s.queues[r].(freeing := true));
    } else {
      forall c | c in s.clients ensures NULL !in s.clients[c].qset {
        assert !Owned(c, NULL, s.disp, s.queues, s.live);
      }
      SetQueueKeeps(s, r, s.queues[r].(freeing := true));
    }
    hide Inv, RemoveQueue;
  }

  lemma OneQueueLess(queues: map<Id, QRes>, r: Id, c: Id)
    requires r in queues
    ensures |QueuesOf(queues, c)| == |QueuesOf(queues - {r}, c)| + One(queues[r].client == c)
  {
    assert QueuesOf(queues, c) == QueuesOf(queues - {r}, c) + if queues[r].client == c then {r} else {};
  }

  /** A resource being freed owns nothing any more. */
  lemma ForgetResource(s: Sys, r: Id)
    requires Inv(s) && r in s.queues && s.queues[r].freeing
    ensures var t := s.(queues := s.queues - {r});
      && DispOk(t.disp, t.clients, t.queues, t.live, t.nextId) && ResourcesOk(t.queues, t.clients, t.live)
      && SetsOk(t.clients, t.disp, t.queues, t.live) && IdsOk(t.clients, t.queues, t.live, t.nextId)
  {
    forall c, p | c in s.clients && p in s.clients[c].qset ensures Owned(c, p, s.disp, s.queues - {r}, s.live) {
      assert Owned(c, p, s.disp, s.queues, s.live);
    }
  }

  lemma FreeReleaseKeeps(s: Sys, r: Id)
    requires Inv(s) && Can(s, FreeRelease(r))
    ensures Inv(OnFreeRelease(s, r))
  {
    hide HandlesOk, TableOk, DispOk, ResourcesOk, SetsOk, IdsOk, RefsOk;
    var c := s.queues[r].client;
    ResourceKeepsClient(s, r);
    ForgetResource(s, r);
    assert StageOk(s.clients[c]);
    CountKeeps(s.(queues := s.queues - {r}), c, s.clients[c].(refs := s.clients[c].refs - 1));
    FreeReleaseKeepsRefs(s, r);
  }

  lemma FreeReleaseKeepsRefs(s: Sys, r: Id)
    requires RefsOk(s.clients, s.queues, s.disp) && r in s.queues
    requires var c := s.queues[r].client; c in s.clients && s.clients[c].refs >= 1
    ensures var c := s.queues[r].client;
      RefsOk(s.clients[c := s.clients[c].(refs := s.clients[c].refs - 1)], s.queues - {r}, s.disp)
  {
    forall x | x in s.clients
      ensures s.clients[x].refs == One(s.clients[x].held) + |QueuesOf(s.queues - {r}, x)| +
        One(s.queues[r].client == x) + One(Keeps(s.disp, x))
    {
      OneQueueLess(s.queues, r, x);
    }
  }

  // --------------------------------------------------------------------------- every step

  lemma DispatcherStepKeeps(s: Sys, a: Action)
    requires Inv(s) && Can(s, a)
    requires a.Signal? || a.Dequeue? || a.TimerPoll? || a.StartAssign? || a.GetPartitionQueue?
      || a.EndAssign? || a.EndPoll? || a.CloseCallback? || a.Use?
    ensures Inv(Apply(s, a))
  {
    hide HandlesOk, TableOk, DispOk, StagesOk, ResourcesOk, SetsOk, IdsOk, RefsOk;
    match a
    case Dequeue => DequeueKeeps(s);
    case TimerPoll(addr) => EnterPollKeeps(s, addr);
    case StartAssign => StartAssignKeeps(s);
    case GetPartitionQueue(q) => GetPartitionQueueKeeps(s, q);
    case CloseCallback(c, q) => CloseCallbackKeeps(s, c, q);
    case Use(c) => UseKeeps(s, c);
    case _ => DispMoves(s, a);
  }

  /** By now the flag is down, so the callback only un-assigns. */
  lemma CloseCallbackKeeps(s: Sys, c: Id, q: Addr)
    requires Inv(s) && Can(s, CloseCallback(c, q))
    ensures OnCloseCallback(s, c, q) == s
  {
    assert StageOk(s.clients[c]);
  }

  lemma UseKeeps(s: Sys, c: Id)
    requires Inv(s) && Can(s, Use(c))
    ensures Blame(s, Dead(s, c, s.clients[c].kf)) == s
  {
    assert StageOk(s.clients[c]);
    HandleOf(s, c);
  }

  lemma DispMoves(s: Sys, a: Action)
    requires Inv(s) && Can(s, a) && (a.Signal? || a.EndAssign? || a.EndPoll?)
    ensures Inv(Apply(s, a))
  {
    hide HandlesOk, TableOk, StagesOk, ResourcesOk, IdsOk;
  }

  lemma EnterPollKeeps(s: Sys, addr: Addr)
    requires Inv(s) && s.disp.Idle? && addr in s.table
    ensures Inv(EnterPoll(s, addr))
  {
  }

  lemma DequeueKeeps(s: Sys)
    requires Inv(s) && Can(s, Dequeue)
    ensures Inv(OnDequeue(s))
  {
    var t := s.(events := s.events[1..]);
    assert Inv(t);
    if s.events[0] in s.table { EnterPollKeeps(t, s.events[0]); }
    hide Inv;
  }

  lemma StartAssignKeeps(s: Sys)
    requires Inv(s) && Can(s, StartAssign)
    ensures Inv(OnStartAssign(s))
  {
    HandleOf(s, s.disp.client);
    hide HandlesOk, TableOk, StageOk, ResourceOk, IdsOk;
  }

  lemma GetPartitionQueueKeeps(s: Sys, q: Addr)
    requires Inv(s) && Can(s, GetPartitionQueue(q))
    ensures Inv(OnGetPartitionQueue(s, q))
  {
    HandleOf(s, s.disp.client);
    hide HandlesOk, TableOk, StageOk;
  }

  /** Theorem. Whatever the interleaving, every step keeps the invariant: in particular no step
      sets `fault`. */
  lemma StepKeepsInv(s: Sys, a: Action)
    requires Inv(s) && Can(s, a)
    ensures Inv(Apply(s, a))
  {
    hide Inv;
    match a
    case New(kind, addr) => NewKeeps(s, kind, addr);
    case Watch(c) => WatchKeeps(s, c);
    case KeepConsumer => KeepConsumerKeeps(s);
    case AddQueue => AddQueueKeeps(s);
    case MakeResource => MakeResourceKeeps(s);
    case LowerFlag(c) => LowerFlagKeeps(s, c);
    case Unwatch(c) => UnwatchKeeps(s, c);
    case Launch(c) => LaunchKeeps(s, c);
    case ClearAll(c) => ClearAllKeeps(s, c);
    case CloseConsumer(c) => CloseConsumerKeeps(s, c);
    case DestroyConsumer(c) => DestroyConsumerKeeps(s, c);
    case Flush(c) => FlushKeeps(s, c);
    case DropClient(c) => DropClientKeeps(s, c);
    case FreeClient(c) => if s.clients[c].kind.Consumer? { FreeConsumerKeeps(s, c); } else { FreeProducerKeeps(s, c); }
    case CleanupRemove(r) => CleanupRemoveKeeps(s, r);
    case CleanupForget(r) => CleanupForgetKeeps(s, r);
    case DropQueue(r) => DropQueueKeeps(s, r);
    case FreeRemove(r) => FreeRemoveKeeps(s, r);
    case FreeRelease(r) => FreeReleaseKeeps(s, r);
    case _ => DispatcherStepKeeps(s, a);
  }
}
