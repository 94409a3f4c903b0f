/**
  How long a watched handle can go without being polled. The dispatcher of module Dispatcher
  over a clock in milliseconds that never goes back, with every handler instantaneous and every
  wake-up served when it is due: time passes only while no event waits and the wait lasts.
 */
module DispatcherTiming {
  import opened Dispatcher

  /** What becomes of the elapsed time: the code adds it to the interval. */
  datatype Rule = Adds | Subtracts

  datatype Note = Watched(h: Handle, at: int) | PolledAt(h: Handle, at: int)

  datatype Clock = Clock(
    now: U64,
    table: Table,
    events: seq<Handle>,
    deadline: int,           // FOREVER, or when the wait in progress times out
    log: seq<Note>)          // every watch and every poll

  const FOREVER: int := -1

  datatype Action =
    | Watch(h: Handle, isConsumer: bool, maxPollIntervalMs: U64)
    | Remove(h: Handle)
    | Signal(h: Handle)
    | Advance(to: U64)
    | Turn(timedOut: bool, made: seq<Handle>, wait: int)

  function Init(): Clock {
    Clock(0, map[], [], FOREVER, [])
  }

  function WaitOf(rule: Rule, it: Item, now: U64): int {
    if rule.Adds? then it.maxPollIntervalMs + Elapsed(it, now) else it.maxPollIntervalMs - Elapsed(it, now)
  }

  function Waits(rule: Rule, table: Table, now: U64): (r: map<Handle, int>)
    ensures r.Keys == table.Keys
  {
    map h | h in table :: WaitOf(rule, table[h], now)
  }

  function EventOf(s: Clock, timedOut: bool): Handle
    requires timedOut || s.events != []
  {
    if timedOut then NULL_HANDLE else s.events[0]
  }

  /** The table once the event of a turn has been served. */
  function ServedIn(s: Clock, timedOut: bool): Table
    requires timedOut || s.events != []
  {
    Served(s.table, EventOf(s, timedOut), s.now)
  }

  ghost predicate Can(rule: Rule, s: Clock, a: Action) {
    match a
    case Watch(h, _, m) => h != NULL_HANDLE && m / 2 <= MAX_INTERVAL
    case Remove(_) => true
    case Signal(h) => h != NULL_HANDLE
    case Advance(to) => s.events == [] && s.now <= to && (s.deadline != FOREVER ==> to <= s.deadline)
    case Turn(timedOut, made, wait) =>
      && (if timedOut then s.events == [] && s.deadline == s.now else s.events != [])
      && var table := ServedIn(s, timedOut);
      && IsOnceEach(made, DueIn(table, s.now))
      && (if table == map[] then wait == FOREVER else IsLeast(Waits(rule, Checked(table, s.now), s.now), wait))
  }

  function Notes(made: seq<Handle>, now: U64): (r: seq<Note>)
    ensures |r| == |made| && forall i :: 0 <= i < |r| ==> r[i] == PolledAt(made[i], now)
  {
    seq(|made|, i requires 0 <= i < |made| => PolledAt(made[i], now))
  }

  function Apply(s: Clock, a: Action): Clock
    requires a.Turn? ==> a.timedOut || s.events != []
  {
    match a
    case Watch(h, isConsumer, m) =>
      s.(table := s.table[h := Item(isConsumer, m / 2, s.now)], events := s.events + [NULL_HANDLE],
        log := s.log + [Watched(h, s.now)])
    case Remove(h) =>
      if h in s.table then s.(table := s.table - {h}, events := s.events + [NULL_HANDLE]) else s
    case Signal(h) => s.(events := s.events + [h])
    case Advance(to) => s.(now := to)
    case Turn(timedOut, made, wait) =>
      var table := ServedIn(s, timedOut);
      s.(table := Checked(table, s.now), events := if timedOut then s.events else s.events[1..],
         deadline := if table == map[] then FOREVER else s.now + wait,
         log := s.log + Notes(ServedPoll(s.table, EventOf(s, timedOut)) + made, s.now))
  }

  // ----------------------------------------------------------------------------- runs

  ghost predicate IsRun(rule: Rule, s: Clock, actions: seq<Action>)
    decreases |actions|
  {
    actions == [] || (Can(rule, s, actions[0]) && IsRun(rule, Apply(s, actions[0]), actions[1..]))
  }

  ghost function After(rule: Rule, s: Clock, actions: seq<Action>): Clock
    requires IsRun(rule, s, actions)
    decreases |actions|
  {
    if actions == [] then s else After(rule, Apply(s, actions[0]), actions[1..])
  }

  ghost predicate Reachable(rule: Rule, s: Clock) {
    exists actions :: IsRun(rule, Init(), actions) && s == After(rule, Init(), actions)
  }

  lemma {:induction false} OneMore(rule: Rule, s: Clock, actions: seq<Action>, a: Action)
    requires IsRun(rule, s, actions) && Can(rule, After(rule, s, actions), a)
    ensures IsRun(rule, s, actions + [a]) && After(rule, s, actions + [a]) == Apply(After(rule, s, actions), a)
    decreases |actions|
  {
    if actions == [] {
      assert [a][1..] == [];
    } else {
      OneMore(rule, Apply(s, actions[0]), actions[1..], a);
      assert (actions + [a])[1..] == actions[1..] + [a];
    }
  }

  lemma ReachableStep(rule: Rule, s: Clock, a: Action)
    requires Reachable(rule, s) && Can(rule, s, a)
    ensures Reachable(rule, Apply(s, a))
  {
    var actions :| IsRun(rule, Init(), actions) && s == After(rule, Init(), actions);
    OneMore(rule, Init(), actions, a);
  }

  // ------------------------------------------------------------------------ the bound

  /** When a handle was last polled or, if never, began to be watched. */
  function LastOf(log: seq<Note>, h: Handle): int {
    if log == [] then -1
    else if log[|log| - 1].h == h then log[|log| - 1].at
    else LastOf(log[..|log| - 1], h)
  }

  function Bound(rule: Rule, interval: int): int {
    if rule.Adds? && interval > 0 then 3 * interval - 2 else interval
  }

  ghost predicate Small(table: Table) {
    forall h :: h in table ==> table[h].maxPollIntervalMs <= MAX_INTERVAL
  }

  ghost predicate Logged(log: seq<Note>, table: Table) {
    forall h :: h in table ==> LastOf(log, h) == table[h].lastPollMs
  }

  ghost predicate InTime(rule: Rule, s: Clock) {
    forall h :: h in s.table ==>
      && s.table[h].lastPollMs <= s.now
      && s.now <= s.table[h].lastPollMs + Bound(rule, s.table[h].maxPollIntervalMs)
  }

  /** The wait in progress ends before any handle is overdue. */
  ghost predicate WakesInTime(rule: Rule, s: Clock) {
    s.events == [] ==>
      && (s.deadline == FOREVER <==> s.table == map[])
      && (s.deadline == FOREVER || s.now <= s.deadline)
      && forall h :: h in s.table ==>
           s.deadline <= s.table[h].lastPollMs + Bound(rule, s.table[h].maxPollIntervalMs)
  }

  ghost predicate Inv(rule: Rule, s: Clock) {
    Small(s.table) && Logged(s.log, s.table) && InTime(rule, s) && WakesInTime(rule, s)
  }

  lemma {:induction false} LastAfterNotes(log: seq<Note>, made: seq<Handle>, now: U64, h: Handle)
    ensures LastOf(log + Notes(made, now), h) == if h in made then now else LastOf(log, h)
  {
    if made == [] {
      assert log + Notes(made, now) == log;
    } else {
      var n := |made| - 1;
      assert (log + Notes(made, now))[..|log| + n] == log + Notes(made[..n], now);
      assert made == made[..n] + [made[n]];
      LastAfterNotes(log, made[..n], now, h);
    }
  }

  lemma WatchKeeps(rule: Rule, s: Clock, h: Handle, isConsumer: bool, m: U64)
    requires Inv(rule, s) && m / 2 <= MAX_INTERVAL
    ensures Inv(rule, Apply(s, Watch(h, isConsumer, m)))
  {
    var log' := s.log + [Watched(h, s.now)];
    assert log'[..|log'| - 1] == s.log;
  }

  /** An item after a turn: polled just now, or within its interval. */
  lemma ItemAfterTurn(s: Clock, timedOut: bool, h: Handle)
    requires (timedOut || s.events != []) && h in s.table && s.table[h].lastPollMs <= s.now
    ensures var it := Checked(ServedIn(s, timedOut), s.now)[h];
      && it.maxPollIntervalMs == s.table[h].maxPollIntervalMs
      && Elapsed(it, s.now) == s.now - it.lastPollMs >= 0
      && (it.lastPollMs == s.now || (it == s.table[h] && s.now - it.lastPollMs < it.maxPollIntervalMs))
      && (it.lastPollMs != s.now ==>
            h !in ServedPoll(s.table, EventOf(s, timedOut)) && h !in DueIn(ServedIn(s, timedOut), s.now))
      && (it.lastPollMs == s.now ==>
            || s.table[h].lastPollMs == s.now
            || h in ServedPoll(s.table, EventOf(s, timedOut)) || h in DueIn(ServedIn(s, timedOut), s.now))
  {
  }

  lemma TurnKeepsLogged(rule: Rule, s: Clock, timedOut: bool, made: seq<Handle>, wait: int)
    requires Inv(rule, s) && Can(rule, s, Turn(timedOut, made, wait))
    ensures var s' := Apply(s, Turn(timedOut, made, wait)); Logged(s'.log, s'.table) && Small(s'.table)
  {
    var s' := Apply(s, Turn(timedOut, made, wait));
    var polled := ServedPoll(s.table, EventOf(s, timedOut)) + made;
    forall h | h in s'.table ensures LastOf(s'.log, h) == s'.table[h].lastPollMs {
      ItemAfterTurn(s, timedOut, h);
      LastAfterNotes(s.log, polled, s.now, h);
      assert h in polled <==> h in ServedPoll(s.table, EventOf(s, timedOut)) || h in made;
    }
  }

  /** The wait after a turn, seen from one handle. */
  lemma WaitForOne(rule: Rule, s: Clock, timedOut: bool, made: seq<Handle>, wait: int, h: Handle)
    requires Can(rule, s, Turn(timedOut, made, wait)) && h in s.table && s.table[h].lastPollMs <= s.now
    ensures var s' := Apply(s, Turn(timedOut, made, wait));
      var it := Checked(ServedIn(s, timedOut), s.now)[h];
      && s'.table[h] == it && s'.deadline == s.now + wait
      && wait <= WaitOf(rule, it, s.now) && 0 <= WaitOf(rule, it, s.now)
  {
    ItemAfterTurn(s, timedOut, h);
    var after := Checked(ServedIn(s, timedOut), s.now);
    assert Waits(rule, after, s.now)[h] == WaitOf(rule, after[h], s.now);
  }

  lemma WaitIsNotNegative(rule: Rule, s: Clock, timedOut: bool, made: seq<Handle>, wait: int)
    requires Can(rule, s, Turn(timedOut, made, wait)) && s.table != map[]
    requires forall h :: h in s.table ==> s.table[h].lastPollMs <= s.now
    ensures wait >= 0
  {
    var after := Checked(ServedIn(s, timedOut), s.now);
    assert after.Keys == s.table.Keys;
    var h :| h in after && Waits(rule, after, s.now)[h] == wait;
    WaitForOne(rule, s, timedOut, made, wait, h);
  }

  lemma TurnKeepsOne(rule: Rule, s: Clock, timedOut: bool, made: seq<Handle>, wait: int, h: Handle)
    requires Can(rule, s, Turn(timedOut, made, wait)) && h in s.table && s.table[h].lastPollMs <= s.now
    ensures var s' := Apply(s, Turn(timedOut, made, wait));
      var it := s'.table[h];
      && it.lastPollMs <= s.now
      && s'.deadline <= it.lastPollMs + Bound(rule, it.maxPollIntervalMs)
      && s.now <= it.lastPollMs + Bound(rule, it.maxPollIntervalMs)
  {
    ItemAfterTurn(s, timedOut, h);
    WaitForOne(rule, s, timedOut, made, wait, h);
  }

  lemma TurnShape(s: Clock, timedOut: bool, made: seq<Handle>, wait: int)
    requires timedOut || s.events != []
    ensures var s' := Apply(s, Turn(timedOut, made, wait));
      && s'.now == s.now && s'.table.Keys == s.table.Keys
      && s'.deadline == if s.table == map[] then FOREVER else s.now + wait
  {
    assert ServedIn(s, timedOut).Keys == s.table.Keys;
  }

  lemma TurnKeepsTime(rule: Rule, s: Clock, timedOut: bool, made: seq<Handle>, wait: int)
    requires Inv(rule, s) && Can(rule, s, Turn(timedOut, made, wait))
    ensures var s' := Apply(s, Turn(timedOut, made, wait)); InTime(rule, s') && WakesInTime(rule, s')
  {
    var s' := Apply(s, Turn(timedOut, made, wait));
    TurnShape(s, timedOut, made, wait);
    if s.table != map[] { WaitIsNotNegative(rule, s, timedOut, made, wait); }
    assert s'.table == map[] <==> s'.table.Keys == {};
    hide Apply, Can, Bound;
    forall h | h in s'.table
      ensures var it := s'.table[h];
        && it.lastPollMs <= s.now
        && s'.deadline <= it.lastPollMs + Bound(rule, it.maxPollIntervalMs)
        && s.now <= it.lastPollMs + Bound(rule, it.maxPollIntervalMs)
    {
      TurnKeepsOne(rule, s, timedOut, made, wait, h);
    }
  }

  lemma StepKeepsInv(rule: Rule, s: Clock, a: Action)
    requires Inv(rule, s) && Can(rule, s, a)
    ensures Inv(rule, Apply(s, a))
  {
    match a
    case Watch(h, isConsumer, m) => WatchKeeps(rule, s, h, isConsumer, m);
    case Turn(timedOut, made, wait) =>
      TurnKeepsLogged(rule, s, timedOut, made, wait);
      TurnKeepsTime(rule, s, timedOut, made, wait);
    case _ =>
  }

  lemma {:induction false} RunKeepsInv(rule: Rule, s: Clock, actions: seq<Action>)
    requires Inv(rule, s) && IsRun(rule, s, actions)
    ensures Inv(rule, After(rule, s, actions))
    decreases |actions|
  {
    if actions == [] {
    } else {
      StepKeepsInv(rule, s, actions[0]);
      RunKeepsInv(rule, Apply(s, actions[0]), actions[1..]);
    }
  }

  lemma ReachableInv(rule: Rule, s: Clock)
    requires Reachable(rule, s)
    ensures Inv(rule, s)
  {
    var actions :| IsRun(rule, Init(), actions) && s == After(rule, Init(), actions);
    RunKeepsInv(rule, Init(), actions);
  }

  /** Theorem. A turn of the machine under the code's rule is a turn of the dispatcher: the
      timeout the dispatcher computes is the wait, in microseconds. */
  lemma TurnIsTheDispatchers(s: Clock, timedOut: bool, made: seq<Handle>, wait: int, timeout: int)
    requires Reachable(Adds, s) && Can(Adds, s, Turn(timedOut, made, wait))
    requires IsTimeout(ServedIn(s, timedOut), s.now, timeout)
    ensures var s' := Apply(s, Turn(timedOut, made, wait));
      if s'.table == map[] then timeout == -1 == wait == s'.deadline
      else timeout == 1000 * wait == 1000 * (s'.deadline - s.now)
  {
    ReachableInv(Adds, s);
    var table := ServedIn(s, timedOut);
    ServedKeepsIntervals(s, timedOut);
    hide Inv, Served, IsOnceEach;
    if table != map[] {
      SmallFits(table);
      TimeoutIsExact(table, s.now, timeout);
      assert Waits(Adds, Checked(table, s.now), s.now) == ExactDelays(Checked(table, s.now), s.now);
      LeastIsUnique(ExactDelays(Checked(table, s.now), s.now), wait, timeout / 1000);
      assert Checked(table, s.now).Keys == table.Keys;
    }
  }

  lemma SmallFits(table: Table)
    requires Small(table) && table != map[]
    ensures Fits(table)
  {
    var h :| h in table;
  }

  lemma ServedKeepsIntervals(s: Clock, timedOut: bool)
    requires (timedOut || s.events != []) && Small(s.table)
    ensures Small(ServedIn(s, timedOut))
  {
  }

  /** Theorem. However signals, watches and removes come, a watched handle with interval I >= 1
      is never more than 3I - 2 ms past its last poll, and one with interval 0 is polled all the
      time; had the elapsed time been subtracted, never more than I. */
  lemma PollGapIsBounded(rule: Rule, s: Clock, h: Handle)
    requires Reachable(rule, s) && h in s.table
    ensures s.now - LastOf(s.log, h) <= Bound(rule, s.table[h].maxPollIntervalMs)
  {
    ReachableInv(rule, s);
  }

  /** Theorem. A wait entered just after a handle's own poll lasts at most its interval. */
  lemma WaitAfterOwnPoll(rule: Rule, s: Clock, timedOut: bool, made: seq<Handle>, wait: int, h: Handle)
    requires Reachable(rule, s) && Can(rule, s, Turn(timedOut, made, wait)) && h in s.table
    requires h in made || h in ServedPoll(s.table, EventOf(s, timedOut))
    ensures var s' := Apply(s, Turn(timedOut, made, wait));
      s'.deadline != FOREVER && s'.deadline - s.now <= s.table[h].maxPollIntervalMs
  {
    ReachableInv(rule, s);
    ItemAfterTurn(s, timedOut, h);
    WaitForOne(rule, s, timedOut, made, wait, h);
    WaitIsNotNegative(rule, s, timedOut, made, wait);
  }

  // ---------------------------------------------------------------------------- tightness

  function OneHandle(h: Handle, interval: U64, now: U64, deadline: int): Clock {
    Clock(now, map[h := Item(true, interval, 0)], [], deadline, [Watched(h, 0)])
  }

  /** A turn in which nothing is due, with one handle in the table. */
  lemma IdleTurn(rule: Rule, s: Clock, h: Handle, interval: U64)
    requires s.table == map[h := Item(true, interval, 0)] && s.now < interval <= MAX_INTERVAL
    requires s.events != [] && s.events[0] != h
    ensures var wait := if rule.Adds? then interval + s.now else interval - s.now;
      && Can(rule, s, Turn(false, [], wait))
      && Apply(s, Turn(false, [], wait)) == s.(events := s.events[1..], deadline := s.now + wait)
  {
    var wait := if rule.Adds? then interval + s.now else interval - s.now;
    var it := Item(true, interval, 0);
    assert s.table[h] == it && !Due(it, s.now);
    assert Served(s.table, s.events[0], s.now) == s.table && Checked(s.table, s.now) == s.table;
    assert DueIn(s.table, s.now) == {};
    assert Waits(rule, s.table, s.now)[h] == wait;
    assert IsLeast(Waits(rule, s.table, s.now), wait);
    assert s.log + [] == s.log;
  }

  lemma FirstWait(rule: Rule, h: Handle, m: U64)
    requires h != NULL_HANDLE && 1 <= m / 2 <= MAX_INTERVAL
    ensures Reachable(rule, OneHandle(h, m / 2, 0, m / 2))
  {
    var s0 := Init();
    assert IsRun(rule, s0, []) && After(rule, s0, []) == s0;
    ReachableStep(rule, s0, Watch(h, true, m));
    var s1 := Apply(s0, Watch(h, true, m));
    assert s1.log == [Watched(h, 0)];
    IdleTurn(rule, s1, h, m / 2);
    ReachableStep(rule, s1, Turn(false, [], m / 2));
  }

  lemma BoundIsReached(rule: Rule, h: Handle, m: U64) returns (s: Clock)
    requires h != NULL_HANDLE && 1 <= m / 2 <= MAX_INTERVAL
    ensures Reachable(rule, s) && h in s.table && s.table[h].maxPollIntervalMs == m / 2
    ensures s.now - LastOf(s.log, h) == Bound(rule, m / 2)
  {
    hide Reachable;
    var i: U64 := m / 2;
    FirstWait(rule, h, m);
    s := OneHandle(h, i, 0, i);
    if rule.Adds? {
      s := LateWait(rule, h, i, s);
    } else {
      ReachableStep(rule, s, Advance(i));
      s := s.(now := i);
    }
    assert s.log == [Watched(h, 0)];
  }

  /** Woken just before the first poll is due, the dispatcher waits for nearly twice as long again. */
  lemma LateWait(rule: Rule, h: Handle, i: U64, first: Clock) returns (s: Clock)
    requires rule.Adds? && h != NULL_HANDLE && 1 <= i <= MAX_INTERVAL
    requires first == OneHandle(h, i, 0, i) && Reachable(rule, first)
    ensures Reachable(rule, s) && s == first.(now := 3 * i - 2, deadline := 3 * i - 2)
  {
    hide Reachable;
    s := first;
    ReachableStep(rule, s, Advance(i - 1));
    s := s.(now := i - 1);
    ReachableStep(rule, s, Signal(h + 1));
    s := s.(events := [h + 1]);
    IdleTurn(rule, s, h, i);
    ReachableStep(rule, s, Turn(false, [], i + s.now));
    s := s.(events := [], deadline := 3 * i - 2);
    ReachableStep(rule, s, Advance(3 * i - 2));
    s := s.(now := 3 * i - 2);
  }

  /** Theorem. The bound is tight, whatever max.poll.interval.ms is. */
  lemma BoundIsTight(rule: Rule, h: Handle, m: U64) returns (s: Clock)
    requires h != NULL_HANDLE && m / 2 <= MAX_INTERVAL
    ensures Reachable(rule, s) && h in s.table && s.table[h].maxPollIntervalMs == m / 2
    ensures s.now - LastOf(s.log, h) == Bound(rule, m / 2)
  {
    if m / 2 > 0 {
      s := BoundIsReached(rule, h, m);
    } else {
      assert IsRun(rule, Init(), []) && After(rule, Init(), []) == Init();
      ReachableStep(rule, Init(), Watch(h, true, m));
      s := Apply(Init(), Watch(h, true, m));
      assert s.log == [Watched(h, 0)];
    }
  }

  /** A watched handle goes longer without a poll than its max.poll.interval.ms. */
  ghost predicate Overruns(rule: Rule, h: Handle, m: U64, s: Clock) {
    Reachable(rule, s) && h in s.table && s.table[h].maxPollIntervalMs == m / 2 && s.now - LastOf(s.log, h) > m
  }

  /** Theorem. The evidently intended guarantee, that a handle is always polled within its
      max.poll.interval.ms, fails exactly for values of 8 and more and for 6. Subtracting the
      elapsed time would give it for every value, with half the interval to spare. */
  lemma WhenMaxPollIntervalIsKept(rule: Rule, h: Handle, m: U64)
    requires h != NULL_HANDLE && m / 2 <= MAX_INTERVAL
    ensures (exists s :: Overruns(rule, h, m, s)) <==> rule.Adds? && (m >= 8 || m == 6)
    ensures rule.Subtracts? ==>
      forall s :: Reachable(rule, s) && h in s.table && s.table[h].maxPollIntervalMs == m / 2 ==>
        s.now - LastOf(s.log, h) <= m / 2
  {
    forall s | Reachable(rule, s) && h in s.table && s.table[h].maxPollIntervalMs == m / 2
      ensures s.now - LastOf(s.log, h) <= Bound(rule, m / 2)
    {
      PollGapIsBounded(rule, s, h);
    }
    if rule.Adds? && (m >= 8 || m == 6) {
      var s := BoundIsTight(rule, h, m);
      assert Overruns(rule, h, m, s);
    }
  }
}
