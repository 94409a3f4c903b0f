/**
  The thread that serves librdkafka's callbacks and polls every watched handle often enough
  (c_src/queuecallbacksdispatcher.cc). The arithmetic is that of uint64_t, wrap-around and
  all. Other threads change the table only under the lock, so what runs under the lock is one
  method here.
 */
module Dispatcher {
  const TWO63: int := 0x8000_0000_0000_0000
  const TWO64: int := 0x1_0000_0000_0000_0000

  type U64 = x: int | 0 <= x < TWO64

  function Wrap(x: int): U64 {
    x % TWO64
  }

  /** static_cast<int64_t> of an uint64_t. */
  function AsSigned(x: U64): int {
    if x < TWO63 then x else x - TWO64
  }

  /** rd_kafka_t*; NULL_HANDLE is nullptr. */
  type Handle = nat

  const NULL_HANDLE: Handle := 0

  datatype Item = Item(isConsumer: bool, maxPollIntervalMs: U64, lastPollMs: U64)

  type Table = map<Handle, Item>

  function Elapsed(it: Item, now: U64): U64 {
    Wrap(now - it.lastPollMs)
  }

  predicate Due(it: Item, now: U64) {
    Elapsed(it, now) >= it.maxPollIntervalMs
  }

  function Polled(it: Item, now: U64): Item {
    it.(lastPollMs := now)
  }

  function CheckedItem(it: Item, now: U64): Item {
    if Due(it, now) then Polled(it, now) else it
  }

  /** The table after a check: every item that was due has just been polled. */
  function Checked(table: Table, now: U64): (r: Table)
    ensures r.Keys == table.Keys
  {
    map h | h in table :: CheckedItem(table[h], now)
  }

  ghost function DueIn(table: Table, now: U64): set<Handle> {
    set h | h in table && Due(table[h], now)
  }

  function Delay(it: Item, now: U64): U64 {
    Wrap(it.maxPollIntervalMs + Elapsed(it, now))
  }

  function Delays(table: Table, now: U64): (r: map<Handle, int>)
    ensures r.Keys == table.Keys
  {
    map h | h in table :: Delay(table[h], now)
  }

  /** The same without wrap-around of the sum. */
  function ExactDelays(table: Table, now: U64): (r: map<Handle, int>)
    ensures r.Keys == table.Keys
  {
    map h | h in table :: table[h].maxPollIntervalMs + Elapsed(table[h], now)
  }

  /** `r` is the least value of the map, which has one. */
  ghost predicate IsLeast(values: map<Handle, int>, r: int) {
    && (exists h :: h in values && values[h] == r)
    && forall h :: h in values ==> r <= values[h]
  }

  lemma LeastIsUnique(values: map<Handle, int>, a: int, b: int)
    requires IsLeast(values, a) && IsLeast(values, b)
    ensures a == b
  {
  }

  /** Theorem. After a check every item has either just been polled, with nothing elapsed, or
      less than its interval has elapsed, whatever the clock did. */
  lemma CheckedIsFresh(table: Table, now: U64, h: Handle)
    requires h in table
    ensures var e := Elapsed(Checked(table, now)[h], now);
      && (h in DueIn(table, now) ==> e == 0)
      && (h !in DueIn(table, now) ==> e < table[h].maxPollIntervalMs && e == Elapsed(table[h], now))
  {
  }

  /** What a check returns, as a number of microseconds to wait. */
  ghost predicate IsTimeout(table: Table, now: U64, timeout: int) {
    if table == map[] then timeout == -1
    else
      exists least: U64 :: IsLeast(Delays(Checked(table, now), now), least) && timeout == AsSigned(Wrap(least * 1000))
  }

  /** Theorem. -1 means that the table is empty, and nothing else. */
  lemma TimeoutIsMinusOne(table: Table, now: U64, timeout: int)
    requires IsTimeout(table, now, timeout)
    ensures timeout == -1 <==> table == map[]
  {
    if table != map[] {
      var least: U64 :| IsLeast(Delays(Checked(table, now), now), least) && timeout == AsSigned(Wrap(least * 1000));
      WrapIsEven(least * 500);
    }
  }

  lemma WrapIsEven(half: int)
    ensures Wrap(2 * half) % 2 == 0
  {
    var x := 2 * half;
    assert x == TWO64 * (x / TWO64) + Wrap(x);
    assert Wrap(x) == 2 * (half - (TWO64 / 2) * (x / TWO64));
  }

  const MAX_INTERVAL: int := (TWO63 - 1) / 2000

  /** The timeout is 1000 times the least interval plus time elapsed since, as integers. */
  ghost predicate IsExact(table: Table, now: U64, timeout: int) {
    timeout % 1000 == 0 && IsLeast(ExactDelays(Checked(table, now), now), timeout / 1000)
  }

  ghost predicate SameIntervals(a: Table, b: Table) {
    a.Keys == b.Keys && forall h :: h in a ==> a[h].maxPollIntervalMs == b[h].maxPollIntervalMs
  }

  /** Exact for these intervals, whatever the clock and the stamps of the last polls. */
  ghost predicate AlwaysExact(table: Table) {
    forall t: Table, now: U64, timeout: int ::
      SameIntervals(table, t) && IsTimeout(t, now, timeout) ==> IsExact(t, now, timeout)
  }

  /** Some interval is 0; or the least is at most MAX_INTERVAL + 1 and none is above 2^63. */
  ghost predicate Fits(table: Table) {
    || (exists h :: h in table && table[h].maxPollIntervalMs == 0)
    || (&& (exists h :: h in table && table[h].maxPollIntervalMs <= MAX_INTERVAL + 1)
        && forall h :: h in table ==> table[h].maxPollIntervalMs <= TWO63)
  }

  /** No sum wraps around for an interval of up to 2^63. */
  lemma SumsFit(table: Table, now: U64)
    requires forall h :: h in table ==> table[h].maxPollIntervalMs <= TWO63
    ensures Delays(Checked(table, now), now) == ExactDelays(Checked(table, now), now)
  {
    var after := Checked(table, now);
    forall h | h in after ensures Delay(after[h], now) == after[h].maxPollIntervalMs + Elapsed(after[h], now) {
      CheckedIsFresh(table, now, h);
      SumFits(after[h], now);
    }
  }

  lemma SumFits(it: Item, now: U64)
    requires it.maxPollIntervalMs + Elapsed(it, now) < TWO64
    ensures Delay(it, now) == it.maxPollIntervalMs + Elapsed(it, now)
  {
  }

  lemma ThousandTimes(x: U64)
    requires x <= 2 * MAX_INTERVAL + 1
    ensures AsSigned(Wrap(x * 1000)) == x * 1000 && x * 1000 % 1000 == 0 && x * 1000 / 1000 == x
  {
  }

  /** What a handle of interval `i` contributes is below 2i, and 0 for an interval of 0. */
  lemma DelayIsShort(table: Table, now: U64, h: Handle)
    requires h in table
    ensures var (i, d) := (table[h].maxPollIntervalMs, ExactDelays(Checked(table, now), now)[h]);
      if i == 0 then d == 0 == Delays(Checked(table, now), now)[h] else i <= d < 2 * i
  {
    CheckedIsFresh(table, now, h);
  }

  /** Theorem. For such intervals neither the sum, nor the product, nor the cast overflows. */
  lemma TimeoutIsExact(table: Table, now: U64, timeout: int)
    requires IsTimeout(table, now, timeout) && table != map[] && Fits(table)
    ensures IsExact(table, now, timeout)
  {
    var after := Checked(table, now);
    var least: U64 :| IsLeast(Delays(after, now), least) && timeout == AsSigned(Wrap(least * 1000));
    forall h | h in table ensures ExactDelays(after, now)[h] >= 0 {
      DelayIsShort(table, now, h);
    }
    if h :| h in table && table[h].maxPollIntervalMs == 0 {
      hide Checked, Delays, ExactDelays;
      DelayIsShort(table, now, h);
      ThousandTimes(0);
      assert least == 0 && IsLeast(ExactDelays(after, now), 0);
    } else {
      var h :| h in table && table[h].maxPollIntervalMs <= MAX_INTERVAL + 1;
      hide Wrap, AsSigned, Checked, Delays, ExactDelays;
      DelayIsShort(table, now, h);
      SumsFit(table, now);
      ThousandTimes(least);
    }
  }

  lemma {:induction false} LeastExists(values: map<Handle, int>)
    requires values != map[]
    ensures exists r :: IsLeast(values, r)
    decreases |values|
  {
    var h :| h in values;
    var rest := values - {h};
    if rest == map[] {
      assert values.Keys == {h} + rest.Keys;
      assert IsLeast(values, values[h]);
    } else {
      LeastExists(rest);
      var r :| IsLeast(rest, r);
      assert values.Keys == {h} + rest.Keys;
      assert IsLeast(values, if values[h] < r then values[h] else r);
    }
  }

  lemma TimeoutExists(table: Table, now: U64) returns (least: U64, timeout: int)
    requires table != map[]
    ensures IsLeast(Delays(Checked(table, now), now), least)
    ensures timeout == AsSigned(Wrap(least * 1000)) && IsTimeout(table, now, timeout)
  {
    LeastExists(Delays(Checked(table, now), now));
    var r :| IsLeast(Delays(Checked(table, now), now), r);
    least, timeout := r, AsSigned(Wrap(r * 1000));
  }

  /** An item last polled so long before time 0. */
  function Ago(it: Item, e: U64): (r: Item)
    ensures Elapsed(r, 0) == e && r.maxPollIntervalMs == it.maxPollIntervalMs
  {
    it.(lastPollMs := if e == 0 then 0 else TWO64 - e)
  }

  function Stamped(table: Table, elapsed: Item -> U64): (r: Table)
    ensures SameIntervals(table, r)
    ensures forall h :: h in table ==> Elapsed(r[h], 0) == elapsed(table[h])
  {
    map h | h in table :: Ago(table[h], elapsed(table[h]))
  }

  /** All intervals too long: the wait is more than an int64_t of microseconds can say. */
  lemma TooLongToSay(table: Table)
    requires table != map[] && forall h :: h in table ==> table[h].maxPollIntervalMs > MAX_INTERVAL + 1
    ensures !AlwaysExact(table)
  {
    var t := Stamped(table, (it: Item) => if it.maxPollIntervalMs == 0 then 0 else it.maxPollIntervalMs - 1);
    FitsAlike(table, t);
    var least, timeout := TimeoutExists(t, 0);
    forall h | h in t ensures ExactDelays(Checked(t, 0), 0)[h] >= 2 * MAX_INTERVAL + 3 {
      assert !Due(t[h], 0);
    }
    assert timeout < TWO63;
    assert !IsExact(t, 0, timeout);
  }

  /** One interval above 2^63: its sum can wrap around to 0. */
  lemma SumCanVanish(table: Table, b: Handle)
    requires b in table && table[b].maxPollIntervalMs > TWO63
    requires forall h :: h in table ==> table[h].maxPollIntervalMs > 0
    ensures !AlwaysExact(table)
  {
    var t := Stamped(table, (it: Item) => if it.maxPollIntervalMs > TWO63 then TWO64 - it.maxPollIntervalMs else 0);
    var least, timeout := TimeoutExists(t, 0);
    VanishedDelay(t[b]);
    assert Delays(Checked(t, 0), 0)[b] == Delay(CheckedItem(t[b], 0), 0);
    hide Checked, Delays, ExactDelays, CheckedItem, Delay, Elapsed, Wrap, AsSigned;
    ThousandTimes(0);
    assert least == 0 && timeout == 0;
    forall h | h in t ensures ExactDelays(Checked(t, 0), 0)[h] > 0 {
      DelayIsShort(t, 0, h);
    }
    assert !IsExact(t, 0, timeout);
  }

  lemma VanishedDelay(it: Item)
    requires it.maxPollIntervalMs > TWO63 && Elapsed(it, 0) == TWO64 - it.maxPollIntervalMs
    ensures Delay(CheckedItem(it, 0), 0) == 0
  {
  }

  /** Theorem. The timeout is exact, for every clock and all stamps, if and only if some interval
      is 0, or the least one is at most (2^63 - 1) / 2000 + 1 and none is above 2^63. */
  lemma WhenTimeoutIsExact(table: Table)
    requires table != map[]
    ensures AlwaysExact(table) <==> Fits(table)
  {
    if Fits(table) {
      forall t: Table, now: U64, timeout: int | SameIntervals(table, t) && IsTimeout(t, now, timeout)
        ensures IsExact(t, now, timeout)
      {
        FitsAlike(table, t);
        TimeoutIsExact(t, now, timeout);
      }
    } else if b :| b in table && table[b].maxPollIntervalMs > TWO63 {
      SumCanVanish(table, b);
    } else {
      TooLongToSay(table);
    }
  }

  lemma FitsAlike(a: Table, b: Table)
    requires SameIntervals(a, b) && a != map[]
    ensures Fits(a) ==> Fits(b)
    ensures b != map[]
  {
    var h :| h in a;
    assert h in b;
    forall h ensures h in a <==> h in b {
    }
  }

  ghost predicate AtMost(table: Table, limit: int) {
    forall h :: h in table ==> table[h].maxPollIntervalMs <= limit
  }

  /** Theorem. As a limit on intervals: (2^63 - 1) / 2000 + 1 is the greatest that keeps every
      timeout exact, whatever handles there are. */
  lemma GreatestExactLimit(limit: U64)
    ensures (forall table :: table != map[] && AtMost(table, limit) ==> AlwaysExact(table)) <==>
      limit <= MAX_INTERVAL + 1
  {
    if limit <= MAX_INTERVAL + 1 {
      forall table: Table | table != map[] && AtMost(table, limit) ensures AlwaysExact(table) {
        var h :| h in table;
        assert Fits(table);
        WhenTimeoutIsExact(table);
      }
    } else {
      var table := map[1 := Item(true, limit, 0)];
      assert AtMost(table, limit) && 1 in table;
      assert !Fits(table);
      WhenTimeoutIsExact(table);
    }
  }

  class QueueCallbacksDispatcher {
    var running: bool
    var objects: Table
    var events: seq<Handle>
    var mainQueues: map<Handle, seq<int>>    // what waits in librdkafka's main queue of each handle
    ghost var polls: seq<Handle>              // every do_poll, in order

    constructor ()
      ensures running && objects == map[] && events == [] && mainQueues == map[] && polls == []
    {
      running, objects, events, mainQueues, polls := true, map[], [], map[], [];
    }

    method Watch(instance: Handle, isConsumer: bool, maxPollIntervalMs: U64, now: U64)
      modifies this`objects, this`events
      ensures objects == old(objects)[instance := Item(isConsumer, maxPollIntervalMs / 2, now)]
      ensures events == old(events) + [NULL_HANDLE]
    {
      objects := objects[instance := Item(isConsumer, maxPollIntervalMs / 2, now)];
      events := events + [NULL_HANDLE];
    }

    /** Afterwards the handle is not in the table, whether or not it was; its events stay. */
    method Remove(instance: Handle) returns (found: bool)
      modifies this`objects, this`events
      ensures found == (instance in old(objects)) && objects == old(objects) - {instance}
      ensures events == old(events) + if found then [NULL_HANDLE] else []
    {
      if instance !in objects {
        return false;
      }
      objects := objects - {instance};
      events := events + [NULL_HANDLE];
      return true;
    }

    method Signal(instance: Handle)
      modifies this`events
      ensures events == old(events) + [instance]
    {
      events := events + [instance];
    }

    /** A consumer's main queue is drained, while the dispatcher runs, and what was in it dropped;
        a producer's is served whole. */
    method DoPoll(obj: Handle, isConsumer: bool)
      modifies this`mainQueues, this`polls
      ensures polls == old(polls) + [obj]
      ensures mainQueues.Keys == old(mainQueues).Keys
      ensures forall h :: h in mainQueues && h != obj ==> mainQueues[h] == old(mainQueues)[h]
      ensures obj in mainQueues ==>
        mainQueues[obj] == if running || !isConsumer then [] else old(mainQueues)[obj]
    {
      polls := polls + [obj];
      if !isConsumer {
        mainQueues := if obj in mainQueues then mainQueues[obj := []] else mainQueues;
      } else if obj in mainQueues {
        while running && mainQueues[obj] != []
          invariant obj in mainQueues && mainQueues == old(mainQueues)[obj := mainQueues[obj]]
          invariant polls == old(polls) + [obj] && (!running ==> mainQueues == old(mainQueues))
          decreases |mainQueues[obj]|
        {
          mainQueues := mainQueues[obj := mainQueues[obj][1..]];
        }
      }
    }

    /** The body of the loop below: poll the handle if it is due; when it is due next. */
    method CheckOne(h: Handle, now: U64) returns (delay: U64)
      requires h in objects
      modifies this`objects, this`mainQueues, this`polls
      ensures objects == old(objects)[h := CheckedItem(old(objects)[h], now)] && delay == Delay(objects[h], now)
      ensures var it := old(objects)[h];
        && polls == old(polls) + (if Due(it, now) then [h] else [])
        && mainQueues ==
           if Due(it, now) && (running || !it.isConsumer) && h in old(mainQueues) then old(mainQueues)[h := []]
           else old(mainQueues)
    {
      if Wrap(now - objects[h].lastPollMs) >= objects[h].maxPollIntervalMs {
        objects := objects[h := objects[h].(lastPollMs := now)];
        DoPoll(h, objects[h].isConsumer);
      }
      return Wrap(objects[h].maxPollIntervalMs + Wrap(now - objects[h].lastPollMs));
    }

    /** The handles are visited in whatever order the hash table has. */
    method CheckMaxPollIntervalMs(now: U64) returns (timeout: int)
      modifies this`objects, this`mainQueues, this`polls
      ensures objects == Checked(old(objects), now)
      ensures IsTimeout(old(objects), now, timeout)
      ensures exists made: seq<Handle> :: polls == old(polls) + made && IsOnceEach(made, DueIn(old(objects), now))
      ensures mainQueues == Drained(old(mainQueues), old(objects), DueIn(old(objects), now), running)
    {
      hide SoFar, IsOnceEach, DueIn, Checked, Drained, IsTimeout, Delay, CheckedItem, AsSigned, Wrap;
      ghost var table, main: map<Handle, seq<int>> := objects, mainQueues;
      NothingSeen(table, now, main, running);
      if objects == map[] {
        assert polls == old(polls) + [];
        return -1;
      }
      ghost var made: seq<Handle> := [];
      var nextSchedule: U64 := TWO64 - 1;
      var todo := objects.Keys;
      while todo != {}
        invariant todo <= table.Keys == objects.Keys && polls == old(polls) + made
        invariant SoFar(table, table.Keys - todo, now, main, running, objects, made, mainQueues, nextSchedule)
        decreases |todo|
      {
        var h :| h in todo;
        VisitOne(table, table.Keys - todo, h, now, main, running, objects, made, mainQueues, nextSchedule);
        assert table.Keys - (todo - {h}) == table.Keys - todo + {h};
        made := made + if Due(objects[h], now) then [h] else [];
        var delay := CheckOne(h, now);
        nextSchedule := if delay < nextSchedule then delay else nextSchedule;
        todo := todo - {h};
      }
      assert table.Keys - todo == table.Keys;
      AllSeen(table, now, main, running, objects, made, mainQueues, nextSchedule);
      return AsSigned(Wrap(nextSchedule * 1000));
    }

    /** An event for a handle that is no longer in the table is ignored. */
    method Serve(obj: Handle, now: U64)
      modifies this`objects, this`mainQueues, this`polls
      ensures objects == Served(old(objects), obj, now)
      ensures polls == old(polls) + ServedPoll(old(objects), obj)
      ensures mainQueues == Drained(old(mainQueues), objects, ServedSet(old(objects), obj), running)
    {
      if obj != NULL_HANDLE && obj in objects {
        objects := objects[obj := objects[obj].(lastPollMs := now)];
        DoPoll(obj, objects[obj].isConsumer);
      }
    }

    /** One turn of process_callbacks: the wait timed out, or an event was dequeued. What it polls
        are handles of the table: first the event's, if it is there, and then those that are due.
        A handle polled has its stamp set and its main queue served; all others are left alone. */
    method Turn(timedOut: bool, now: U64) returns (timeout: int)
      requires timedOut || events != []
      modifies this`objects, this`events, this`mainQueues, this`polls
      ensures events == if timedOut then old(events) else old(events)[1..]
      ensures old(polls) <= polls && objects.Keys == old(objects).Keys && mainQueues.Keys == old(mainQueues).Keys
      ensures var event, polled := if timedOut then NULL_HANDLE else old(events)[0], polls[|old(polls)|..];
        && (event != NULL_HANDLE && event in old(objects) ==> polled != [] && polled[0] == event)
        && (forall h :: h in polled ==> h in old(objects))
        && (forall h :: h in old(objects) && (h != event || h == NULL_HANDLE) ==>
              (h in polled <==> Elapsed(old(objects)[h], now) >= old(objects)[h].maxPollIntervalMs))
        && (forall h :: h in objects ==>
              objects[h] == if h in polled then old(objects)[h].(lastPollMs := now) else old(objects)[h])
        && (forall h :: h in mainQueues ==>
              mainQueues[h] ==
                if h in polled && (running || !old(objects)[h].isConsumer) then [] else old(mainQueues)[h])
      ensures var event := if timedOut then NULL_HANDLE else old(events)[0];
        var table, served := Served(old(objects), event, now), ServedPoll(old(objects), event);
        && objects == Checked(table, now) && IsTimeout(table, now, timeout)
        && exists made: seq<Handle> :: polls == old(polls) + served + made && IsOnceEach(made, DueIn(table, now))
    {
      hide Checked, IsTimeout, IsOnceEach, DueIn, Served, ServedPoll, ServedSet, Drained;
      var obj := NULL_HANDLE;
      if !timedOut {
        obj := events[0];
        events := events[1..];
      }
      ghost var table, before, main := objects, polls, mainQueues;
      Serve(obj, now);
      timeout := CheckMaxPollIntervalMs(now);
      ghost var made: seq<Handle> :| polls == before + ServedPoll(table, obj) + made &&
        IsOnceEach(made, DueIn(Served(table, obj, now), now));
      assert polls == before + (ServedPoll(table, obj) + made);
      TurnMeans(table, obj, now, main, running, made);
    }
  }

  /** What a turn comes to, in terms of the handles it polls. */
  lemma TurnMeans(table: Table, event: Handle, now: U64, main: map<Handle, seq<int>>, running: bool, made: seq<Handle>)
    requires IsOnceEach(made, DueIn(Served(table, event, now), now))
    ensures var (polled, t) := (ServedPoll(table, event) + made, Checked(Served(table, event, now), now));
      && t.Keys == table.Keys
      && (event != NULL_HANDLE && event in table ==> polled != [] && polled[0] == event)
      && (forall h :: h in polled ==> h in table)
      && (forall h :: h in table && (h != event || h == NULL_HANDLE) ==>
            (h in polled <==> Elapsed(table[h], now) >= table[h].maxPollIntervalMs))
      && (forall h :: h in t ==> t[h] == if h in polled then table[h].(lastPollMs := now) else table[h])
    ensures var (polled, after) := (ServedPoll(table, event) + made, Served(table, event, now));
      var queues := Drained(Drained(main, after, ServedSet(table, event), running), after, DueIn(after, now), running);
      && queues.Keys == main.Keys
      && forall h :: h in queues ==>
           queues[h] == if h in polled && (running || !table[h].isConsumer) then [] else main[h]
  {
    var after := Served(table, event, now);
    forall h | h in table ensures h in DueIn(after, now) <==> Due(after[h], now) {
      InDue(after, h, now);
    }
  }

  /** Serving the main queues of those among `polled`; consumers only while the thread runs. */
  ghost function Drained(queues: map<Handle, seq<int>>, table: Table, polled: set<Handle>,
                         running: bool): map<Handle, seq<int>>
  {
    map h | h in queues :: if h in polled && h in table && (running || !table[h].isConsumer) then [] else queues[h]
  }

  ghost function CheckedPart(table: Table, seen: set<Handle>, now: U64): (r: Table)
    ensures r.Keys == table.Keys
  {
    map h | h in table :: if h in seen then CheckedItem(table[h], now) else table[h]
  }

  /** The minimum taken over the handles seen, from UINT64_MAX on. */
  ghost predicate LeastSoFar(delays: map<Handle, int>, seen: set<Handle>, r: int) {
    if seen == {} then r == TWO64 - 1
    else seen <= delays.Keys && (exists h :: h in seen && delays[h] == r) && forall h :: h in seen ==> r <= delays[h]
  }

  lemma LeastStep(before: map<Handle, int>, delays: map<Handle, int>, seen: set<Handle>, h: Handle, r: int)
    requires LeastSoFar(before, seen, r) && h in delays && h !in seen && delays[h] < TWO64
    requires before.Keys == delays.Keys && forall x :: x in seen && x in delays ==> delays[x] == before[x]
    ensures LeastSoFar(delays, seen + {h}, if delays[h] < r then delays[h] else r)
  {
    if seen == {} {
      assert seen + {h} == {h} && h in seen + {h};
    } else {
      var x :| x in seen && before[x] == r;
      assert x in seen + {h} && h in seen + {h};
    }
  }

  /** Where the loop of check_max_poll_interval_ms stands when it has seen these handles. */
  ghost predicate SoFar(table: Table, seen: set<Handle>, now: U64, main: map<Handle, seq<int>>, running: bool,
                        objects: Table, made: seq<Handle>, mainQueues: map<Handle, seq<int>>, r: int) {
    var due := DueIn(table, now) * seen;
    && objects == CheckedPart(table, seen, now) && IsOnceEach(made, due)
    && mainQueues == Drained(main, table, due, running)
    && LeastSoFar(Delays(objects, now), seen, r)
  }

  lemma NothingSeen(table: Table, now: U64, main: map<Handle, seq<int>>, running: bool)
    ensures SoFar(table, table.Keys - table.Keys, now, main, running, table, [], main, TWO64 - 1)
    ensures table == map[] ==>
      && Checked(table, now) == table && IsTimeout(table, now, -1)
      && IsOnceEach([], DueIn(table, now)) && Drained(main, table, DueIn(table, now), running) == main
  {
    assert DueIn(table, now) * {} == {};
    assert CheckedPart(table, {}, now) == table;
  }

  lemma VisitOne(table: Table, seen: set<Handle>, h: Handle, now: U64, main: map<Handle, seq<int>>, running: bool,
                 objects: Table, made: seq<Handle>, mainQueues: map<Handle, seq<int>>, r: int)
    requires h in table && h !in seen && h in objects
    requires SoFar(table, seen, now, main, running, objects, made, mainQueues, r)
    ensures var (it, objects') := (objects[h], objects[h := CheckedItem(objects[h], now)]);
      var due, delay := Due(it, now), Delay(objects'[h], now);
      SoFar(table, seen + {h}, now, main, running, objects', made + (if due then [h] else []),
            if due && (running || !it.isConsumer) && h in mainQueues then mainQueues[h := []] else mainQueues,
            if delay < r then delay else r)
  {
    hide CheckedPart, Drained, Delays, CheckedItem, DueIn, Due, Delay, IsOnceEach, LeastSoFar;
    var due, objects' := DueIn(table, now), objects[h := CheckedItem(objects[h], now)];
    VisitTable(table, seen, h, now);
    VisitDrained(main, table, due * seen, h, running);
    assert (h in due) == Due(table[h], now) by { InDue(table, h, now); }
    if Due(table[h], now) {
      ExtendOnceEach(made, due * seen, h);
      assert due * (seen + {h}) == due * seen + {h};
    } else {
      assert due * (seen + {h}) == due * seen && made + [] == made;
    }
    OtherDelays(objects, h, CheckedItem(objects[h], now), now);
    LeastStep(Delays(objects, now), Delays(objects', now), seen, h, r);
  }

  lemma VisitTable(table: Table, seen: set<Handle>, h: Handle, now: U64)
    requires h in table && h !in seen
    ensures CheckedPart(table, seen, now)[h] == table[h]
    ensures CheckedPart(table, seen + {h}, now) == CheckedPart(table, seen, now)[h := CheckedItem(table[h], now)]
  {
  }

  lemma VisitDrained(main: map<Handle, seq<int>>, table: Table, polled: set<Handle>, h: Handle, running: bool)
    requires h in table
    ensures var was := Drained(main, table, polled, running);
      Drained(main, table, polled + {h}, running) ==
        if (running || !table[h].isConsumer) && h in was then was[h := []] else was
  {
  }

  lemma InDue(table: Table, h: Handle, now: U64)
    requires h in table
    ensures h in DueIn(table, now) <==> Due(table[h], now)
  {
  }

  lemma OtherDelays(table: Table, h: Handle, it: Item, now: U64)
    ensures forall x :: x in table && x != h ==> Delays(table[h := it], now)[x] == Delays(table, now)[x]
    ensures Delays(table[h := it], now)[h] == Delay(it, now)
  {
  }

  lemma AllSeen(table: Table, now: U64, main: map<Handle, seq<int>>, running: bool,
                objects: Table, made: seq<Handle>, mainQueues: map<Handle, seq<int>>, r: U64)
    requires table != map[] && SoFar(table, table.Keys, now, main, running, objects, made, mainQueues, r)
    ensures objects == Checked(table, now) && IsTimeout(table, now, AsSigned(Wrap(r * 1000)))
    ensures IsOnceEach(made, DueIn(table, now)) && mainQueues == Drained(main, table, DueIn(table, now), running)
  {
    assert table.Keys != {} && DueIn(table, now) * table.Keys == DueIn(table, now);
    assert CheckedPart(table, table.Keys, now) == Checked(table, now);
    assert IsLeast(Delays(Checked(table, now), now), r);
  }

  /** The table after an event has been served, before the check. */
  function Served(table: Table, event: Handle, now: U64): Table {
    if event != NULL_HANDLE && event in table then table[event := Polled(table[event], now)] else table
  }

  /** The poll that an event is answered with. */
  function ServedPoll(table: Table, event: Handle): seq<Handle> {
    if event != NULL_HANDLE && event in table then [event] else []
  }

  function ServedSet(table: Table, event: Handle): set<Handle> {
    if event != NULL_HANDLE && event in table then {event} else {}
  }

  /** `made` lists the members of `due`, each once. */
  ghost predicate IsOnceEach(made: seq<Handle>, due: set<Handle>) {
    && (forall h :: h in made <==> h in due)
    && forall i, j :: 0 <= i < j < |made| ==> made[i] != made[j]
  }

  lemma ExtendOnceEach(made: seq<Handle>, due: set<Handle>, h: Handle)
    requires IsOnceEach(made, due) && h !in due
    ensures IsOnceEach(made + [h], due + {h})
  {
    assert forall x :: x in made + [h] <==> x in made || x == h;
  }
}
