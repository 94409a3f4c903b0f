/**
  The lives of librdkafka handles, queue handles and the resources that own them
  (c_src/exrdkafka_consumer.cc, c_src/exrdkafka_producer.cc), under every interleaving of the
  dispatcher thread, the threads that call NIFs, the garbage collector and the asynchronous
  cleanups, for any number of clients. An address is free to be used again once it has been
  destroyed. `fault` is set by any step that touches what is gone or breaks an assertion.
 */
module HandleLifetime {
  import opened QueueManager

  type Id = nat

  datatype Kind = Consumer | Producer

  /** How far a client has come from its creation to the end of its memory. */
  datatype Stage = Created | Active | FlagDown | Unwatched | Closing | Cleared | Closed | Finished | Freed

  /** enif_consumer or enif_producer. `rk` is the handle its QueueManager remembers; `held` says
      whether some Erlang term refers to it, `refs` is the reference count. */
  datatype Client = Client(kind: Kind, rk: Addr, kf: Addr, running: bool, qset: set<Addr>,
                           refs: nat, held: bool, stage: Stage)

  /** enif_queue. `cleaning` and `freeing` say that remove has returned and the statement after
      it has not been executed, in consumer_queue_cleanup and in enif_queue_free. */
  datatype QRes = QRes(client: Id, queue: Addr, held: bool, cleaning: bool, freeing: bool)

  /** The dispatcher thread. It holds the dispatcher's lock except when idle. */
  datatype Disp =
    | Idle
    | Polling(client: Id)
    | Assigning(client: Id)                    // in assign_partitions, between two elements
    | Got(client: Id, queue: Addr, res: Id)    // in enif_new_queue, after each statement
    | Kept(client: Id, queue: Addr, res: Id)
    | Added(client: Id, queue: Addr, res: Id)

  datatype Sys = Sys(
    clients: map<Id, Client>,
    handles: map<Addr, Id>,     // rd_kafka_t that have not been destroyed, and whose they are
    table: set<Addr>,           // the dispatcher's objects_
    events: seq<Addr>,
    disp: Disp,
    queues: map<Id, QRes>,
    live: map<Addr, Id>,        // rd_kafka_queue_t that have not been destroyed, and for which resource they were made
    nextId: Id,
    fault: bool)

  function Init(): Sys {
    Sys(map[], map[], {}, [], Idle, map[], map[], 0, false)
  }

  datatype Action =
    | New(kind: Kind, addr: Addr)
    | Watch(c: Id)
    | Signal(addr: Addr)
    | Dequeue
    | TimerPoll(addr: Addr)
    | StartAssign
    | GetPartitionQueue(queue: Addr)
    | KeepConsumer
    | AddQueue
    | MakeResource
    | EndAssign
    | EndPoll
    | LowerFlag(c: Id)
    | Unwatch(c: Id)
    | Launch(c: Id)
    | ClearAll(c: Id)
    | CloseCallback(c: Id, queue: Addr)
    | CloseConsumer(c: Id)
    | DestroyConsumer(c: Id)
    | Flush(c: Id)
    | Use(c: Id)
    | DropClient(c: Id)
    | FreeClient(c: Id)
    | CleanupRemove(r: Id)
    | CleanupForget(r: Id)
    | DropQueue(r: Id)
    | FreeRemove(r: Id)
    | FreeRelease(r: Id)

  predicate Is(s: Sys, c: Id, kind: Kind, stage: Stage) {
    c in s.clients && s.clients[c].kind == kind && s.clients[c].stage == stage
  }

  /** Nothing but the destructor is left of a producer that cleanup was not called for. */
  predicate Collected(k: Client) {
    k.kind.Producer? && !k.held && k.refs == 0
  }

  predicate Can(s: Sys, a: Action) {
    match a
    case New(_, addr) => addr != NULL && addr !in s.handles
    case Watch(c) => c in s.clients && s.clients[c].stage.Created? && s.disp.Idle?
    case Signal(_) => true
    case Dequeue => s.disp.Idle? && s.events != []
    case TimerPoll(addr) => s.disp.Idle? && addr in s.table
    case StartAssign => s.disp.Polling? && s.disp.client in s.clients && s.clients[s.disp.client].kind.Consumer?
    case GetPartitionQueue(q) => s.disp.Assigning? && q != NULL && q !in s.live
    case KeepConsumer => s.disp.Got?
    case AddQueue => s.disp.Kept?
    case MakeResource => s.disp.Added?
    case EndAssign => s.disp.Assigning?
    case EndPoll => s.disp.Polling?
    // consumer_cleanup, called once: three statements, the second under the dispatcher's lock
    case LowerFlag(c) => Is(s, c, Consumer, Active) && s.clients[c].held
    case Unwatch(c) =>
      s.disp.Idle? &&
      (Is(s, c, Consumer, FlagDown) || (Is(s, c, Producer, Active) && (s.clients[c].held || Collected(s.clients[c]))))
    case Launch(c) => c in s.clients && s.clients[c].stage.Unwatched? && s.clients[c].held
    // cleanup_consumer
    case ClearAll(c) => Is(s, c, Consumer, Closing)
    case CloseCallback(c, q) => Is(s, c, Consumer, Cleared) && q != NULL && q !in s.live
    case CloseConsumer(c) => Is(s, c, Consumer, Cleared)
    case DestroyConsumer(c) => Is(s, c, Consumer, Closed)
    // cleanup_producer
    case Flush(c) => Is(s, c, Producer, Closing) || (Is(s, c, Producer, Unwatched) && Collected(s.clients[c]))
    // a NIF on the client: for a consumer, before cleanup
    case Use(c) =>
      c in s.clients && s.clients[c].held && !s.clients[c].stage.Created? &&
      (s.clients[c].kind.Consumer? ==> s.clients[c].stage.Active?)
    // a consumer's last reference goes only after cleanup
    case DropClient(c) => c in s.clients && s.clients[c].held &&
      (s.clients[c].stage in {Closing, Cleared, Closed, Finished} || Is(s, c, Producer, Active))
    case FreeClient(c) => c in s.clients && s.clients[c].refs == 0 && s.clients[c].stage.Finished?
    case CleanupRemove(r) => r in s.queues && s.queues[r].held && !s.queues[r].cleaning
    case CleanupForget(r) => r in s.queues && s.queues[r].cleaning
    case DropQueue(r) => r in s.queues && s.queues[r].held && !s.queues[r].cleaning
    case FreeRemove(r) => r in s.queues && !s.queues[r].held && !s.queues[r].freeing
    case FreeRelease(r) => r in s.queues && s.queues[r].freeing
  }

  // ------------------------------------------------------------------- what goes wrong

  /** The handle at `addr` is not, or no longer, this client's. */
  predicate Dead(s: Sys, c: Id, addr: Addr) {
    addr !in s.handles || s.handles[addr] != c
  }

  predicate Gone(s: Sys, c: Id) {
    c !in s.clients || s.clients[c].stage.Freed?
  }

  /** What librdkafka has for client `c`, and for resource `r`, when a queue manager turns to it. */
  ghost function WorldOf(s: Sys, c: Id, r: Id): World {
    World((set a | a in s.handles && s.handles[a] == c), s.live.Keys, (set q | q in s.live && s.live[q] == r), {}, 0)
  }

  /** Some call in the list may not be made when its turn comes. */
  ghost predicate Bad(s: Sys, c: Id, r: Id, calls: seq<Call>) {
    !Admissible(WorldOf(s, c, r), calls)
  }

  // --------------------------------------------------------------- what the code does

  function SetClient(s: Sys, c: Id, k: Client): Sys {
    s.(clients := s.clients[c := k])
  }

  function Blame(s: Sys, bad: bool): Sys {
    s.(fault := s.fault || bad)
  }

  function SetStage(s: Sys, c: Id, stage: Stage): Sys
    requires c in s.clients
  {
    SetClient(s, c, s.clients[c].(stage := stage))
  }

  /** QueueManager::remove, for resource `r`. */
  ghost function RemoveQueue(s: Sys, r: Id): Sys
    requires r in s.queues
  {
    var (c, q) := (s.queues[r].client, s.queues[r].queue);
    if c !in s.clients then Blame(s, true)
    else
      var k := s.clients[c];
      var calls := RemoveCalls(k.rk, k.qset, q);
      var t := Blame(s, Gone(s, c) || Bad(s, c, r, calls)).(live := s.live - (set p | p in Destroyed(calls)));
      if q in k.qset then SetClient(t, c, k.(qset := k.qset - {q})) else t
  }

  /** QueueManager::add, in enif_new_queue. */
  ghost function AddToSet(s: Sys, c: Id, q: Addr): Sys {
    if c !in s.clients then Blame(s, true)
    else
      var k := s.clients[c];
      SetClient(Blame(s, Gone(s, c) || q in k.qset || Bad(s, c, 0, [Detach(q)])), c, k.(qset := k.qset + {q}))
  }

  function Keep(s: Sys, c: Id): Sys {
    if c !in s.clients then Blame(s, true)
    else SetClient(Blame(s, s.clients[c].refs == 0), c, s.clients[c].(refs := s.clients[c].refs + 1))
  }

  /** enif_release_resource; the destructor of a count of 0 is FreeClient, or for a producer
      that cleanup was not called for Unwatch, Flush and FreeClient. */
  function Release(s: Sys, c: Id): Sys {
    if c !in s.clients || s.clients[c].refs == 0 then Blame(s, true)
    else SetClient(s, c, s.clients[c].(refs := s.clients[c].refs - 1))
  }

  /** do_poll on the handle at `addr`; its callbacks are handed the client it was made for. */
  function EnterPoll(s: Sys, addr: Addr): Sys {
    if addr !in s.handles then Blame(s, true) else s.(disp := Polling(s.handles[addr]))
  }

  function OnNew(s: Sys, kind: Kind, addr: Addr): Sys {
    SetClient(s, s.nextId, Client(kind, addr, addr, true, {}, 1, true, Created))
      .(handles := s.handles[addr := s.nextId], nextId := s.nextId + 1)
  }

  /** QueueCallbacksDispatcher::watch. */
  function OnWatch(s: Sys, c: Id): Sys
    requires c in s.clients
  {
    SetStage(s, c, Active).(table := s.table + {s.clients[c].kf}, events := s.events + [NULL])
  }

  function OnDequeue(s: Sys): Sys
    requires s.events != []
  {
    var t := s.(events := s.events[1..]);
    if s.events[0] in s.table then EnterPoll(t, s.events[0]) else t
  }

  /** assign_partitions looks at the flag once, before its first element. */
  function OnStartAssign(s: Sys): Sys
    requires s.disp.Polling? && s.disp.client in s.clients
  {
    var c := s.disp.client;
    Blame(if s.clients[c].running then s.(disp := Assigning(c)) else s, Gone(s, c) || Dead(s, c, s.clients[c].rk))
  }

  function OnGetPartitionQueue(s: Sys, q: Addr): Sys
    requires s.disp.Assigning?
  {
    var c := s.disp.client;
    Blame(s.(disp := Got(c, q, s.nextId), live := s.live[q := s.nextId], nextId := s.nextId + 1),
          c !in s.clients || Dead(s, c, s.clients[c].rk))
  }

  function OnKeep(s: Sys): Sys
    requires s.disp.Got?
  {
    Keep(s, s.disp.client).(disp := Kept(s.disp.client, s.disp.queue, s.disp.res))
  }

  ghost function OnAdd(s: Sys): Sys
    requires s.disp.Kept?
  {
    AddToSet(s, s.disp.client, s.disp.queue).(disp := Added(s.disp.client, s.disp.queue, s.disp.res))
  }

  function OnMakeResource(s: Sys): Sys
    requires s.disp.Added?
  {
    s.(queues := s.queues[s.disp.res := QRes(s.disp.client, s.disp.queue, true, false, false)],
       disp := Assigning(s.disp.client))
  }

  /** QueueCallbacksDispatcher::remove. */
  function OnUnwatch(s: Sys, c: Id): Sys
    requires c in s.clients
  {
    var kf := s.clients[c].kf;
    SetStage(s, c, Unwatched).(table := s.table - {kf}, events := s.events + if kf in s.table then [NULL] else [])
  }

  ghost function OnClearAll(s: Sys, c: Id): Sys
    requires c in s.clients
  {
    var k := s.clients[c];
    Blame(SetClient(s, c, k.(qset := {}, stage := Cleared)),
          exists order :: Lists(order, k.qset) && Bad(s, c, 0, ClearCalls(k.rk, order)))
  }

  /** A rebalance callback from within rd_kafka_consumer_close. */
  ghost function OnCloseCallback(s: Sys, c: Id, q: Addr): Sys
    requires c in s.clients
  {
    if !s.clients[c].running then s
    else
      var r := s.nextId;
      var kept := Keep(s.(live := s.live[q := r], nextId := r + 1), c);
      AddToSet(kept, c, q).(queues := s.queues[r := QRes(c, q, true, false, false)])
  }

  function OnDestroyConsumer(s: Sys, c: Id): Sys
    requires c in s.clients
  {
    var k := s.clients[c];
    Blame(SetClient(s, c, k.(kf := NULL, stage := Finished)).(handles := s.handles - {k.kf}), Dead(s, c, k.kf))
  }

  /** The end of enif_consumer_free and of enif_producer_free: delete the queue manager, whose
      set has to be empty, or destroy the producer's handle. */
  function OnFreeClient(s: Sys, c: Id): Sys
    requires c in s.clients
  {
    var k := s.clients[c];
    if k.kind.Consumer? then Blame(SetStage(s, c, Freed), k.qset != {} || k.kf != NULL)
    else Blame(SetStage(s, c, Freed).(handles := s.handles - {k.kf}), Dead(s, c, k.kf))
  }

  function SetQueue(s: Sys, r: Id, q: QRes): Sys {
    s.(queues := s.queues[r := q])
  }

  function OnDropClient(s: Sys, c: Id): Sys
    requires c in s.clients
  {
    Release(SetClient(s, c, s.clients[c].(held := false)), c)
  }

  ghost function OnCleanupRemove(s: Sys, r: Id): Sys
    requires r in s.queues
  {
    SetQueue(RemoveQueue(s, r), r, s.queues[r].(cleaning := true))
  }

  ghost function OnFreeRemove(s: Sys, r: Id): Sys
    requires r in s.queues
  {
    SetQueue(if s.queues[r].queue != NULL then RemoveQueue(s, r) else s, r, s.queues[r].(freeing := true))
  }

  function OnFreeRelease(s: Sys, r: Id): Sys
    requires r in s.queues
  {
    Release(s.(queues := s.queues - {r}), s.queues[r].client)
  }

  ghost function Apply(s: Sys, a: Action): Sys
    requires Can(s, a)
  {
    match a
    case New(kind, addr) => OnNew(s, kind, addr)
    case Watch(c) => OnWatch(s, c)
    case Signal(addr) => s.(events := s.events + [addr])
    case Dequeue => OnDequeue(s)
    case TimerPoll(addr) => EnterPoll(s, addr)
    case StartAssign => OnStartAssign(s)
    case GetPartitionQueue(q) => OnGetPartitionQueue(s, q)
    case KeepConsumer => OnKeep(s)
    case AddQueue => OnAdd(s)
    case MakeResource => OnMakeResource(s)
    case EndAssign => s.(disp := Polling(s.disp.client))
    case EndPoll => s.(disp := Idle)
    case LowerFlag(c) => SetClient(s, c, s.clients[c].(running := false, stage := FlagDown))
    case Unwatch(c) => OnUnwatch(s, c)
    case Launch(c) => SetStage(s, c, Closing)
    case ClearAll(c) => OnClearAll(s, c)
    case CloseCallback(c, q) => OnCloseCallback(s, c, q)
    case CloseConsumer(c) => Blame(SetStage(s, c, Closed), Dead(s, c, s.clients[c].kf))
    case DestroyConsumer(c) => OnDestroyConsumer(s, c)
    case Flush(c) => Blame(SetStage(s, c, Finished), Dead(s, c, s.clients[c].kf))
    case Use(c) => Blame(s, Dead(s, c, s.clients[c].kf))
    case DropClient(c) => OnDropClient(s, c)
    case FreeClient(c) => OnFreeClient(s, c)
    case CleanupRemove(r) => OnCleanupRemove(s, r)
    case CleanupForget(r) => SetQueue(s, r, s.queues[r].(queue := NULL, cleaning := false))
    case DropQueue(r) => SetQueue(s, r, s.queues[r].(held := false))
    case FreeRemove(r) => OnFreeRemove(s, r)
    case FreeRelease(r) => OnFreeRelease(s, r)
  }

  /** What remove destroys is the resource's queue, if the set has it. */
  lemma RemoveQueueIs(s: Sys, r: Id)
    requires r in s.queues && s.queues[r].client in s.clients
    ensures var (c, q) := (s.queues[r].client, s.queues[r].queue);
      var k := s.clients[c];
      RemoveQueue(s, r) == Blame(s, Gone(s, c) || Bad(s, c, r, RemoveCalls(k.rk, k.qset, q)))
                           .(clients := if q in k.qset then s.clients[c := k.(qset := k.qset - {q})] else s.clients,
                             live := if q in k.qset then s.live - {q} else s.live)
  {
    var (k, q) := (s.clients[s.queues[r].client], s.queues[r].queue);
    WhatIsDestroyed(k.rk, k.qset, q, []);
    assert (set p | p in Destroyed(RemoveCalls(k.rk, k.qset, q))) == if q in k.qset then {q} else {};
    hide Bad, Gone, Destroyed, RemoveCalls;
  }

  /** A queue may be detached as long as it is there. */
  lemma WhenDetachIsBad(s: Sys, c: Id, r: Id, q: Addr)
    ensures Bad(s, c, r, [Detach(q)]) <==> q !in s.live
  {
    OneCall(WorldOf(s, c, r), Detach(q));
  }

  // ------------------------------------------------------------------------ invariant

  /** The client's handle has been made and not yet destroyed. */
  predicate Open(k: Client) {
    if k.kind.Consumer? then !k.stage.Finished? && !k.stage.Freed? else !k.stage.Freed?
  }

  predicate IsWatched(k: Client) {
    k.stage.Active? || k.stage.FlagDown?
  }

  ghost predicate HandlesOk(clients: map<Id, Client>, handles: map<Addr, Id>) {
    && (forall c :: c in clients && Open(clients[c]) ==>
         var k := clients[c]; k.kf == k.rk != NULL && k.rk in handles && handles[k.rk] == c)
    && (forall c :: c in clients && clients[c].kind.Consumer? && !Open(clients[c]) ==> clients[c].kf == NULL)
    && (forall a :: a in handles ==> handles[a] in clients && Open(clients[handles[a]]) && clients[handles[a]].rk == a)
  }

  ghost predicate TableOk(table: set<Addr>, handles: map<Addr, Id>, clients: map<Id, Client>) {
    forall a :: a in table ==> a in handles && handles[a] in clients && IsWatched(clients[handles[a]])
  }

  /** A client that is being polled is watched; a queue being made is its alone. */
  ghost predicate DispOk(disp: Disp, clients: map<Id, Client>, queues: map<Id, QRes>, live: map<Addr, Id>, nextId: Id) {
    && (!disp.Idle? ==> disp.client in clients && IsWatched(clients[disp.client]))
    && (disp.Assigning? || disp.Got? || disp.Kept? || disp.Added? ==> clients[disp.client].kind.Consumer?)
    && (disp.Got? || disp.Kept? || disp.Added? ==>
          disp.queue != NULL && disp.queue in live && live[disp.queue] == disp.res < nextId && disp.res !in queues)
    && (disp.Added? ==> disp.queue in clients[disp.client].qset)
  }

  ghost predicate StageOk(k: Client) {
    && (k.stage in {Created, Active} && k.kind.Consumer? ==> k.held)
    && (k.stage in {FlagDown, Unwatched} && k.kind.Consumer? ==> k.held)
    && (k.stage.Created? ==> k.held)
    && (k.kind.Consumer? && k.running ==> k.stage in {Created, Active})
    && (k.qset != {} ==> k.kind.Consumer? && k.stage in {Active, FlagDown, Unwatched, Closing})
    && (k.kind.Producer? ==> k.stage !in {FlagDown, Cleared, Closed})
    && (k.stage.Freed? ==> k.refs == 0)
  }

  ghost predicate StagesOk(clients: map<Id, Client>) {
    forall c :: c in clients ==> StageOk(clients[c])
  }

  /** A resource still holds a queue made for it, unless it is about to forget it. */
  ghost predicate ResourceOk(q: QRes, r: Id, clients: map<Id, Client>, live: map<Addr, Id>) {
    && q.client in clients && clients[q.client].kind.Consumer?
    && (q.cleaning ==> q.held) && (q.freeing ==> !q.held)
    && (q.queue != NULL && !q.cleaning && !q.freeing ==> q.queue in live && live[q.queue] == r)
  }

  ghost predicate ResourcesOk(queues: map<Id, QRes>, clients: map<Id, Client>, live: map<Addr, Id>) {
    forall r :: r in queues ==> ResourceOk(queues[r], r, clients, live)
  }

  /** The owner of a queue in a client's set: a resource, or the dispatcher about to make it. */
  ghost predicate Owned(c: Id, p: Addr, disp: Disp, queues: map<Id, QRes>, live: map<Addr, Id>) {
    && p != NULL && p in live
    && (disp == Added(c, p, live[p])
        || (live[p] in queues && var q := queues[live[p]]; q.client == c && q.queue == p && !q.cleaning && !q.freeing))
  }

  ghost predicate SetsOk(clients: map<Id, Client>, disp: Disp, queues: map<Id, QRes>, live: map<Addr, Id>) {
    forall c, p :: c in clients && p in clients[c].qset ==> Owned(c, p, disp, queues, live)
  }

  ghost predicate IdsOk(clients: map<Id, Client>, queues: map<Id, QRes>, live: map<Addr, Id>, nextId: Id) {
    && (forall c :: c in clients ==> c < nextId)
    && (forall r :: r in queues ==> r < nextId)
    && (forall p :: p in live ==> live[p] < nextId)
  }

  function QueuesOf(queues: map<Id, QRes>, c: Id): set<Id> {
    set r | r in queues && queues[r].client == c
  }

  function One(b: bool): nat {
    if b then 1 else 0
  }

  /** The dispatcher has kept the client for a queue that no resource holds yet. */
  predicate Keeps(disp: Disp, c: Id) {
    (disp.Kept? || disp.Added?) && disp.client == c
  }

  ghost predicate RefsOk(clients: map<Id, Client>, queues: map<Id, QRes>, disp: Disp) {
    forall c :: c in clients ==> clients[c].refs == One(clients[c].held) + |QueuesOf(queues, c)| + One(Keeps(disp, c))
  }

  ghost predicate Inv(s: Sys) {
    && HandlesOk(s.clients, s.handles)
    && TableOk(s.table, s.handles, s.clients)
    && DispOk(s.disp, s.clients, s.queues, s.live, s.nextId)
    && StagesOk(s.clients)
    && ResourcesOk(s.queues, s.clients, s.live)
    && SetsOk(s.clients, s.disp, s.queues, s.live)
    && IdsOk(s.clients, s.queues, s.live, s.nextId)
    && RefsOk(s.clients, s.queues, s.disp)
    && !s.fault
  }

  lemma InitInv()
    ensures Inv(Init())
  {
  }
}
