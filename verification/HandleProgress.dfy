/**
  That lives come to an end: nothing in the order of the statements keeps a client from being cleaned
  up and freed, whatever state it, its queues and the dispatcher are in.
 */
module HandleProgress {
  import opened QueueManager
  import opened HandleLifetime
  import opened HandleSteps
  import opened HandleTheorems
  import opened HandleStatements

  // ------------------------------------------------------------------------ what can follow

  ghost predicate Leads(s: Sys, t: Sys) {
    exists actions :: IsRun(s, actions) && After(s, actions) == t
  }

  lemma {:induction false} RunAndMore(s: Sys, a: seq<Action>, b: seq<Action>)
    requires IsRun(s, a) && IsRun(After(s, a), b)
    ensures IsRun(s, a + b) && After(s, a + b) == After(After(s, a), b)
    decreases |a|
  {
    hide Can, Apply;
    if a == [] {
      assert [] + b == b;
    } else {
      assert (a + b)[0] == a[0] && (a + b)[1..] == a[1..] + b;
      RunAndMore(Apply(s, a[0]), a[1..], b);
    }
  }

  lemma Stay(s: Sys)
    ensures Leads(s, s)
  {
    assert IsRun(s, []) && After(s, []) == s;
  }

  lemma GoOn(s: Sys, t: Sys, more: seq<Action>)
    requires Leads(s, t) && IsRun(t, more)
    ensures Leads(s, After(t, more))
  {
    hide Can, Apply, IsRun, After;
    var actions :| IsRun(s, actions) && After(s, actions) == t;
    RunAndMore(s, actions, more);
  }

  lemma ReachableIsLed(s: Sys)
    ensures Reachable(s) <==> Leads(Init(), s)
  {
    hide IsRun, After;
  }

  lemma Follow(s: Sys, t: Sys, more: seq<Action>) returns (u: Sys)
    requires Reachable(t) && Leads(s, t) && IsRun(t, more)
    ensures u == After(t, more) && Reachable(u) && Leads(s, u)
  {
    hide Can, Apply, IsRun, After, Leads, Reachable;
    u := After(t, more);
    ReachableIsLed(t);
    GoOn(s, t, more);
    GoOn(Init(), t, more);
    ReachableIsLed(u);
  }

  lemma Advance(s: Sys, t: Sys, a: Action) returns (u: Sys)
    requires Reachable(t) && Leads(s, t) && Can(t, a)
    ensures u == Apply(t, a) && Reachable(u) && Leads(s, u)
  {
    hide Can, Apply, Leads, Reachable;
    OneStepRun(t, a);
    u := Follow(s, t, [a]);
  }

  lemma OneStepRun(t: Sys, a: Action)
    requires Can(t, a)
    ensures IsRun(t, [a]) && After(t, [a]) == Apply(t, a)
  {
    hide Can, Apply;
    assert [a][0] == a && [a][1..] == [];
    assert IsRun(Apply(t, a), []) && After(Apply(t, a), []) == Apply(t, a);
  }

  // ------------------------------------------------------------- the dispatcher's callback ends

  function DispLeft(disp: Disp): nat {
    match disp
    case Idle => 0
    case Polling(_) => 1
    case Assigning(_) => 2
    case Added(_, _, _) => 3
    case Kept(_, _, _) => 4
    case Got(_, _, _) => 5
  }

  function DispNext(disp: Disp): Action {
    match disp
    case Idle => Dequeue
    case Polling(_) => EndPoll
    case Assigning(_) => EndAssign
    case Added(_, _, _) => MakeResource
    case Kept(_, _, _) => AddQueue
    case Got(_, _, _) => KeepConsumer
  }

  lemma DispStep(s: Sys, c: Id)
    requires !s.disp.Idle? && c in s.clients
    ensures Can(s, DispNext(s.disp))
    ensures var t := Apply(s, DispNext(s.disp));
      DispLeft(t.disp) < DispLeft(s.disp) && c in t.clients && t.clients[c].stage == s.clients[c].stage
  {
    hide Bad, Gone;
  }

  lemma {:induction false} DispatcherEnds(s: Sys, t: Sys, c: Id) returns (u: Sys)
    requires Reachable(t) && Leads(s, t) && c in t.clients
    ensures Reachable(u) && Leads(s, u) && c in u.clients && u.disp.Idle?
    decreases DispLeft(t.disp)
  {
    hide Can, Apply, Leads, Reachable;
    u := t;
    if !t.disp.Idle? {
      DispStep(t, c);
      u := Advance(s, t, DispNext(t.disp));
      u := DispatcherEnds(s, u, c);
    }
  }

  // -------------------------------------------------------------------- the client's queues go

  /** A resource of a queue is dropped, freed and released; a cleanup under way is finished first. */
  function QueueNext(q: QRes, r: Id): Action {
    if q.cleaning then CleanupForget(r)
    else if q.held then DropQueue(r)
    else if !q.freeing then FreeRemove(r)
    else FreeRelease(r)
  }

  function QueueLeft(q: QRes): nat {
    if q.cleaning then 4 else if q.held then 3 else if !q.freeing then 2 else 1
  }

  /** The step comes closer to the end of resource `r`, and touches no other. */
  ghost predicate Closer(s: Sys, t: Sys, r: Id, c: Id)
    requires r in s.queues
  {
    && t.disp == s.disp && c in t.clients
    && (r in t.queues ==>
          QueueLeft(t.queues[r]) < QueueLeft(s.queues[r]) && QueuesOf(t.queues, c) == QueuesOf(s.queues, c))
    && (r !in t.queues ==> QueuesOf(t.queues, c) == QueuesOf(s.queues, c) - {r})
  }

  lemma RemoveKeepsQueues(s: Sys, r: Id, c: Id)
    requires r in s.queues && c in s.clients
    ensures var t := RemoveQueue(s, r); t.disp == s.disp && t.queues == s.queues && c in t.clients
  {
    hide Bad, Gone, RemoveCalls, Destroyed;
  }

  lemma ReleaseKeepsQueues(s: Sys, x: Id, c: Id)
    requires c in s.clients
    ensures var t := Release(s, x); t.disp == s.disp && t.queues == s.queues && c in t.clients
  {
  }

  lemma QueueStep(s: Sys, r: Id, c: Id)
    requires r in s.queues && (s.queues[r].cleaning ==> s.queues[r].held) && c in s.clients && s.queues[r].client == c
    ensures Can(s, QueueNext(s.queues[r], r))
    ensures Closer(s, Apply(s, QueueNext(s.queues[r], r)), r, c)
  {
    hide RemoveQueue, Release;
    RemoveKeepsQueues(s, r, c);
    var q := s.queues[r];
    if q.freeing && !q.held && !q.cleaning {
      ReleaseKeepsQueues(s.(queues := s.queues - {r}), q.client, c);
    }
  }

  lemma FlagsOf(s: Sys, r: Id)
    requires Reachable(s) && r in s.queues
    ensures s.queues[r].cleaning ==> s.queues[r].held
    ensures s.queues[r].client in s.clients
  {
    ReachableInv(s);
    assert ResourceOk(s.queues[r], r, s.clients, s.live);
    hide Inv;
  }

  lemma {:induction false} QueuesEnd(s: Sys, t: Sys, c: Id) returns (u: Sys)
    requires Reachable(t) && Leads(s, t) && c in t.clients && t.disp.Idle?
    ensures Reachable(u) && Leads(s, u) && c in u.clients && u.disp.Idle? && QueuesOf(u.queues, c) == {}
    decreases |QueuesOf(t.queues, c)|
  {
    hide Can, Apply, Leads, Reachable;
    u := t;
    if QueuesOf(t.queues, c) != {} {
      var r :| r in QueuesOf(t.queues, c);
      u := QueueEnds(s, t, r, c);
      u := QueuesEnd(s, u, c);
    }
  }

  lemma {:induction false} QueueEnds(s: Sys, t: Sys, r: Id, c: Id) returns (u: Sys)
    requires Reachable(t) && Leads(s, t) && c in t.clients && t.disp.Idle? && r in QueuesOf(t.queues, c)
    ensures Reachable(u) && Leads(s, u) && c in u.clients && u.disp.Idle?
    ensures QueuesOf(u.queues, c) == QueuesOf(t.queues, c) - {r}
    decreases QueueLeft(t.queues[r])
  {
    hide Can, Apply, Leads, Reachable;
    FlagsOf(t, r);
    QueueStep(t, r, c);
    u := Advance(s, t, QueueNext(t.queues[r], r));
    if r in u.queues { u := QueueEnds(s, u, r, c); }
  }

  // ------------------------------------------------------------------------ the client's stages

  function ClientNext(k: Client, c: Id): Action {
    match k.stage
    case Created => Watch(c)
    case Active => if k.kind.Consumer? then LowerFlag(c) else Unwatch(c)
    case FlagDown => Unwatch(c)
    case Unwatched => if k.held then Launch(c) else Flush(c)
    case Closing => if k.kind.Consumer? then ClearAll(c) else Flush(c)
    case Cleared => CloseConsumer(c)
    case Closed => DestroyConsumer(c)
    case Finished => if k.held then DropClient(c) else FreeClient(c)
    case Freed => Dequeue
  }

  function ClientLeft(k: Client): nat {
    2 * (8 - Rank(k.stage)) + if k.held then 1 else 0
  }

  /** What the invariant says of a client with no queues left, while the dispatcher is idle. */
  ghost predicate Alone(k: Client) {
    && StageOk(k) && (k.refs == if k.held then 1 else 0)
  }

  lemma ClientCan(s: Sys, c: Id)
    requires c in s.clients && Alone(s.clients[c]) && s.disp.Idle? && !s.clients[c].stage.Freed?
    ensures Can(s, ClientNext(s.clients[c], c))
  {
  }

  /** The client is at this stage, and its queues and the dispatcher are as they were. */
  ghost predicate MovedTo(s: Sys, t: Sys, c: Id, stage: Stage)
    requires c in s.clients
  {
    && t.disp == s.disp && t.queues == s.queues && c in t.clients
    && t.clients[c].stage == stage && t.clients[c].held == s.clients[c].held
  }

  lemma EarlySteps(s: Sys, c: Id)
    requires c in s.clients
    ensures Can(s, Watch(c)) ==> MovedTo(s, Apply(s, Watch(c)), c, Active)
    ensures Can(s, Unwatch(c)) ==> MovedTo(s, Apply(s, Unwatch(c)), c, Unwatched)
    ensures Can(s, LowerFlag(c)) ==> MovedTo(s, Apply(s, LowerFlag(c)), c, FlagDown)
    ensures Can(s, Launch(c)) ==> MovedTo(s, Apply(s, Launch(c)), c, Closing)
  {
    hide Can;
  }

  lemma CleaningSteps(s: Sys, c: Id)
    requires c in s.clients
    ensures Can(s, ClearAll(c)) ==> MovedTo(s, Apply(s, ClearAll(c)), c, Cleared)
    ensures Can(s, CloseConsumer(c)) ==> MovedTo(s, Apply(s, CloseConsumer(c)), c, Closed)
    ensures Can(s, DestroyConsumer(c)) ==> MovedTo(s, Apply(s, DestroyConsumer(c)), c, Finished)
  {
    hide Can, Bad, Dead;
  }

  lemma LastSteps(s: Sys, c: Id)
    requires c in s.clients
    ensures Can(s, Flush(c)) ==> MovedTo(s, Apply(s, Flush(c)), c, Finished)
    ensures Can(s, FreeClient(c)) ==> MovedTo(s, Apply(s, FreeClient(c)), c, Freed)
  {
    hide Can, Dead;
  }

  lemma DropStep(s: Sys, c: Id)
    requires c in s.clients && Alone(s.clients[c]) && s.clients[c].held
    ensures Can(s, DropClient(c)) ==>
      var t := Apply(s, DropClient(c));
      && t.disp == s.disp && t.queues == s.queues && c in t.clients
      && t.clients[c].stage == s.clients[c].stage && !t.clients[c].held
  {
    hide Can;
  }

  function NextStage(k: Client): Stage {
    match k.stage
    case Created => Active
    case Active => if k.kind.Consumer? then FlagDown else Unwatched
    case FlagDown => Unwatched
    case Unwatched => if k.held then Closing else Finished
    case Closing => if k.kind.Consumer? then Cleared else Finished
    case Cleared => Closed
    case Closed => Finished
    case _ => Freed
  }

  lemma LaterIsLess(k: Client, k': Client)
    requires !k.stage.Freed?
    requires (k'.stage == NextStage(k) && k'.held == k.held) || (k'.stage == k.stage && k.held && !k'.held)
    ensures ClientLeft(k') < ClientLeft(k)
  {
  }

  lemma ClientStep(s: Sys, c: Id)
    requires c in s.clients && Alone(s.clients[c]) && s.disp.Idle? && QueuesOf(s.queues, c) == {}
    requires !s.clients[c].stage.Freed?
    ensures Can(s, ClientNext(s.clients[c], c))
    ensures var t := Apply(s, ClientNext(s.clients[c], c));
      && t.disp.Idle? && c in t.clients && QueuesOf(t.queues, c) == {}
      && ClientLeft(t.clients[c]) < ClientLeft(s.clients[c])
  {
    hide Can, QueuesOf, Alone, Apply, ClientLeft;
    ClientCan(s, c);
    var k := s.clients[c];
    if k.stage.Finished? && k.held {
      DropStep(s, c);
    } else {
      NextStep(s, c);
    }
    LaterIsLess(k, Apply(s, ClientNext(k, c)).clients[c]);
  }

  lemma NextStep(s: Sys, c: Id)
    requires c in s.clients && !s.clients[c].stage.Freed? && !(s.clients[c].stage.Finished? && s.clients[c].held)
    requires Can(s, ClientNext(s.clients[c], c))
    ensures MovedTo(s, Apply(s, ClientNext(s.clients[c], c)), c, NextStage(s.clients[c]))
  {
    hide Can, Apply, MovedTo;
    match s.clients[c].stage
    case Closing => CleaningSteps(s, c); LastSteps(s, c);
    case Cleared => CleaningSteps(s, c);
    case Closed => CleaningSteps(s, c);
    case Finished => LastSteps(s, c);
    case Unwatched => EarlySteps(s, c); LastSteps(s, c);
    case _ => EarlySteps(s, c);
  }

  lemma IsAlone(s: Sys, c: Id)
    requires Reachable(s) && c in s.clients && s.disp.Idle? && QueuesOf(s.queues, c) == {}
    ensures Alone(s.clients[c])
  {
    ReachableInv(s);
    assert StageOk(s.clients[c]) && RefsOk(s.clients, s.queues, s.disp);
    hide HandlesOk, TableOk, DispOk, StagesOk, ResourcesOk, SetsOk, IdsOk;
  }

  lemma {:induction false} ClientEnds(s: Sys, t: Sys, c: Id) returns (u: Sys)
    requires Reachable(t) && Leads(s, t) && c in t.clients && t.disp.Idle? && QueuesOf(t.queues, c) == {}
    ensures Reachable(u) && Leads(s, u) && c in u.clients && u.disp.Idle? && QueuesOf(u.queues, c) == {}
    ensures u.clients[c].stage.Freed?
    decreases ClientLeft(t.clients[c])
  {
    hide Can, Apply, Leads, Reachable, Alone;
    u := t;
    if !t.clients[c].stage.Freed? {
      IsAlone(t, c);
      ClientStep(t, c);
      u := Advance(s, t, ClientNext(t.clients[c], c));
      u := ClientEnds(s, u, c);
    }
  }

  /** Theorem. From every state of every run there is a way on to the end of any client: no resource
      of it is left, its handle has been destroyed and its memory freed, and nothing has gone wrong. */
  lemma EveryClientCanBeFreed(s: Sys, c: Id) returns (t: Sys)
    requires Reachable(s) && c in s.clients
    ensures Leads(s, t) && c in t.clients && t.clients[c].stage.Freed? && t.clients[c].refs == 0
    ensures forall r :: r in t.queues ==> t.queues[r].client != c
    ensures forall a :: a in t.handles ==> t.handles[a] != c
    ensures t.clients[c].qset == {} && !t.fault
  {
    hide Leads, Reachable, Inv;
    Stay(s);
    t := DispatcherEnds(s, s, c);
    t := QueuesEnd(s, t, c);
    t := ClientEnds(s, t, c);
    ReachableInv(t);
    NothingLeft(t, c);
  }

  lemma NothingLeft(t: Sys, c: Id)
    requires Inv(t) && c in t.clients && t.clients[c].stage.Freed? && QueuesOf(t.queues, c) == {}
    ensures forall r :: r in t.queues ==> t.queues[r].client != c
    ensures forall a :: a in t.handles ==> t.handles[a] != c
    ensures t.clients[c].qset == {} && !t.fault && t.clients[c].refs == 0
  {
    forall r | r in t.queues ensures t.queues[r].client != c {
      assert r in QueuesOf(t.queues, c) <==> t.queues[r].client == c;
    }
    assert StageOk(t.clients[c]);
    hide TableOk, DispOk, StagesOk, ResourcesOk, SetsOk, IdsOk;
  }

  // ----------------------------------------------------------------------- events are served

  /** Theorem. The dispatcher polls the handle it is woken for, or that is due, exactly when the
      handle is still in the table, and serves the callbacks of the client it was made for. */
  lemma EventIsServed(s: Sys, a: Action)
    requires Reachable(s) && Can(s, a) && (a.Dequeue? || a.TimerPoll?)
    ensures var (addr, t) := (if a.Dequeue? then s.events[0] else a.addr, Apply(s, a));
      && (addr in s.table ==>
            && addr in s.handles && s.handles[addr] in s.clients && s.clients[s.handles[addr]].rk == addr
            && t.disp == Polling(s.handles[addr]))
      && (addr !in s.table ==> t.disp.Idle?)
      && t.events == (if a.Dequeue? then s.events[1..] else s.events) && t.clients == s.clients && t.table == s.table
  {
    ReachableInv(s);
    TableHandles(s);
    hide Inv;
  }

  lemma TableHandles(s: Sys)
    requires Inv(s)
    ensures forall a :: a in s.table ==>
              a in s.handles && s.handles[a] in s.clients && s.clients[s.handles[a]].rk == a
  {
    hide DispOk, StagesOk, ResourcesOk, SetsOk, IdsOk, RefsOk;
  }

  // ----------------------------------------------------------------------------- assignments

  /** Theorem. An assignment is carried out if, and only if, the client is still running; otherwise
      the callback does nothing but unassign. */
  lemma AssignmentNeedsRunning(s: Sys)
    requires Reachable(s) && Can(s, StartAssign)
    ensures var (c, t) := (s.disp.client, Apply(s, StartAssign));
      && c in s.clients && (t.disp == Assigning(c) <==> s.clients[c].running)
      && (!s.clients[c].running ==> t == s)
  {
    ReachableInv(s);
    StepKeepsInv(s, StartAssign);
    hide Inv, Dead, Gone;
    NothingWrong(s, Apply(s, StartAssign));
  }

  lemma NothingWrong(s: Sys, t: Sys)
    requires Inv(s) && Inv(t)
    ensures !s.fault && !t.fault
  {
  }

  lemma Assigned(s: Sys, c: Id)
    requires Reachable(s) && s.disp == Polling(c)
    requires c in s.clients && s.clients[c].kind.Consumer? && s.clients[c].running
    ensures Can(s, StartAssign) && Apply(s, StartAssign) == s.(disp := Assigning(c))
  {
    AssignmentNeedsRunning(s);
    ReachableInv(s);
    StepKeepsInv(s, StartAssign);
    NothingWrong(s, Apply(s, StartAssign));
    hide Inv, Dead, Gone;
  }

  /** Theorem. While a running consumer's callback is served, a queue can be handed out for it: then
      it is in the consumer's set, and a new resource holds it. */
  lemma QueueCanBeHandedOut(s: Sys, c: Id, q: Addr) returns (t: Sys)
    requires Reachable(s) && s.disp == Polling(c)
    requires c in s.clients && s.clients[c].kind.Consumer? && s.clients[c].running
    requires q != NULL && q !in s.live
    ensures Leads(s, t) && Reachable(t)
    ensures var k := s.clients[c];
      t == s.(disp := Idle, clients := s.clients[c := k.(refs := k.refs + 1, qset := k.qset + {q})],
              queues := s.queues[s.nextId := QRes(c, q, true, false, false)], live := s.live[q := s.nextId],
              nextId := s.nextId + 1)
  {
    hide Leads, Reachable, Can, Apply, IsRun, After;
    Stay(s);
    Assigned(s, c);
    t := Advance(s, s, StartAssign);
    CanGetQueue(t, q);
    NewQueueInOneGo(t, q);
    t := Follow(s, t, [GetPartitionQueue(q), KeepConsumer, AddQueue, MakeResource]);
    CallbackEnds(t);
    t := Advance(s, t, EndAssign);
    CallbackEnds(t);
    t := Advance(s, t, EndPoll);
  }

  lemma CanGetQueue(s: Sys, q: Addr)
    requires s.disp.Assigning? && q != NULL && q !in s.live
    ensures Can(s, GetPartitionQueue(q))
  {
  }

  lemma CallbackEnds(s: Sys)
    ensures s.disp.Assigning? ==> Can(s, EndAssign) && Apply(s, EndAssign) == s.(disp := Polling(s.disp.client))
    ensures s.disp.Polling? ==> Can(s, EndPoll) && Apply(s, EndPoll) == s.(disp := Idle)
  {
  }

  /** Theorem. There are runs in which a queue is handed out. */
  lemma AQueueIsHandedOut(addr: Addr, q: Addr) returns (t: Sys)
    requires addr != NULL && q != NULL
    ensures Reachable(t) && t.table == {addr} && 0 in t.clients && t.clients[0].rk == addr && t.clients[0].qset == {q}
    ensures 1 in t.queues && t.queues[1] == QRes(0, q, true, false, false)
  {
    hide Leads, Reachable;
    Stay(Init());
    ReachableIsLed(Init());
    t := Advance(Init(), Init(), New(Consumer, addr));
    t := Advance(Init(), t, Watch(0));
    t := Advance(Init(), t, TimerPoll(addr));
    t := QueueCanBeHandedOut(t, 0, q);
  }
}
