/**
  The message loop of one partition consumer (lib/exrdkafka/consumer.ex), as the source
  writes it: recursion over the polled messages. The user's callback and the arrival of
  stop requests are not under the program's control, so a run is given a script of turns;
  effects are recorded in a trace.
 */
module Consumer {
  import opened Prelude

  type Offset = nat

  /** What the user's `handle_message` returned. */
  datatype Reply<S> = Okay(state: S) | Failed(state: S) | Malformed

  /** `recv_stop` takes any 3-tuple out of the mailbox, not only stop requests. */
  datatype Triple = StopRequest(from: nat, tag: nat) | ForeignTriple

  datatype Effect<S> =
    | Called(batch: seq<Offset>, state: S)
    | Stored(offset: int)
    | Slept(ms: nat)

  datatype Outcome<S> = Completed(state: S) | StoppedBy(msg: Triple) | Running

  datatype Run<S> = Run(outcome: Outcome<S>, trace: seq<Effect<S>>)
  {
    function After(effects: seq<Effect<S>>): Run<S> {
      Run(outcome, effects + trace)
    }
  }

  // ---------------------------------------------------------------- backoff

  datatype Backoff = Backoff(slept: nat, next: nat)

  function ExponentialBackoff(backoff: nat): Backoff {
    if backoff == 0 then Backoff(0, 500)
    else if backoff == 4000 then Backoff(4000, 4000)
    else Backoff(backoff, backoff * 2)
  }

  function SleepEffect<S>(ms: nat): seq<Effect<S>> {
    if ms == 0 then [] else [Slept(ms)]
  }

  /** The delay in force after `k` failures in a row. */
  function DelayAfter(k: nat): nat {
    match k
    case 0 => 0
    case 1 => 500
    case 2 => 1000
    case 3 => 2000
    case _ => 4000
  }

  lemma BackoffFollowsFailures(k: nat)
    ensures ExponentialBackoff(DelayAfter(k)) == Backoff(DelayAfter(k), DelayAfter(k + 1))
  {
  }

  // ------------------------------------------------------ one message at a time

  /** One pass through `process_events_one_by_one`: the mailbox is looked at first. */
  datatype Turn<S> = Interrupted(msg: Triple) | Answered(reply: Reply<S>)

  function ProcessEventsOneByOne<S>(msgs: seq<Offset>, backoff: nat, cb: S, turns: seq<Turn<S>>): Run<S>
    decreases |turns|, 1
  {
    if msgs == [] then Run(Completed(cb), [])
    else if turns == [] then Run(Running, [])
    else
      match turns[0]
      case Interrupted(msg) => Run(StoppedBy(msg), [])
      case Answered(reply) => HandleMessage(msgs, backoff, cb, reply, turns[1..]).After([Called([msgs[0]], cb)])
  }

  function HandleMessage<S>(msgs: seq<Offset>, backoff: nat, cb: S, reply: Reply<S>, turns: seq<Turn<S>>): Run<S>
    requires msgs != []
    decreases |turns|, 2
  {
    var b := ExponentialBackoff(backoff);
    match reply
    case Okay(next) => ProcessEventsOneByOne(msgs[1..], 0, next, turns).After([Stored(msgs[0])])
    case Failed(next) => ProcessEventsOneByOne(msgs, b.next, next, turns).After(SleepEffect(b.slept))
    case Malformed => ProcessEventsOneByOne(msgs, b.next, cb, turns).After(SleepEffect(b.slept))
  }

  // -------------------------------------------------------------- whole batches

  /** One pass through `process_events_batch`: the mailbox is looked at after a failure. */
  datatype BatchTurn<S> = BatchTurn(reply: Reply<S>, waiting: Option<Triple>)

  function ProcessEventsBatch<S>(msgs: seq<Offset>, last: int, backoff: nat, cb: S, turns: seq<BatchTurn<S>>): Run<S>
    decreases |turns|, 1
  {
    if turns == [] then Run(Running, [])
    else
      (match turns[0].reply
       case Okay(next) => Run(Completed(next), [Stored(last)])
       case Failed(next) => HandleBackoffOrStop(msgs, last, backoff, next, turns[0].waiting, turns[1..])
       case Malformed => HandleBackoffOrStop(msgs, last, backoff, cb, turns[0].waiting, turns[1..])
      ).After([Called(msgs, cb)])
  }

  function HandleBackoffOrStop<S>(msgs: seq<Offset>, last: int, backoff: nat, cb: S,
                                  waiting: Option<Triple>, turns: seq<BatchTurn<S>>): Run<S>
    decreases |turns|, 2
  {
    match waiting
    case Some(msg) => Run(StoppedBy(msg), [])
    case None =>
      var b := ExponentialBackoff(backoff);
      ProcessEventsBatch(msgs, last, b.next, cb, turns).After(SleepEffect(b.slept))
  }

  // -------------------------------------------------------------- specification

  function Okays<S>(replies: seq<Reply<S>>): (n: nat)
    ensures n <= |replies|
  {
    if replies == [] then 0 else (if replies[0].Okay? then 1 else 0) + Okays(replies[1..])
  }

  /** The callback state after a list of replies; a malformed reply keeps the old state. */
  function StateAfter<S>(cb: S, replies: seq<Reply<S>>): S {
    if replies == [] then cb
    else StateAfter(if replies[0].Malformed? then cb else replies[0].state, replies[1..])
  }

  /** That is the state the last well-formed reply carried, or the one at the start. */
  lemma {:induction false} StateAfterIsLast<S>(cb: S, replies: seq<Reply<S>>, i: nat)
    requires i <= |replies| && (i > 0 ==> !replies[i - 1].Malformed?)
    requires forall j :: i <= j < |replies| ==> replies[j].Malformed?
    ensures StateAfter(cb, replies) == if i == 0 then cb else replies[i - 1].state
    decreases |replies|
  {
    if replies == [] {
    } else if i <= 1 {
      StateAfterIsLast(if replies[0].Malformed? then cb else replies[0].state, replies[1..], 0);
    } else {
      StateAfterIsLast(if replies[0].Malformed? then cb else replies[0].state, replies[1..], i - 1);
    }
  }

  /** Failures since the last success, counting `before` failures made earlier. */
  function Streak<S>(before: nat, replies: seq<Reply<S>>): nat
    decreases |replies|
  {
    if replies == [] then before
    else Streak(if replies[0].Okay? then 0 else before + 1, replies[1..])
  }

  /** The replies given before anything interrupted the loop. */
  function Replies<S>(turns: seq<Turn<S>>): (r: seq<Reply<S>>)
    ensures |r| <= |turns|
    ensures forall i :: 0 <= i < |r| ==> turns[i] == Answered(r[i])
    ensures |r| < |turns| ==> turns[|r|].Interrupted?
  {
    if turns == [] || turns[0].Interrupted? then [] else [turns[0].reply] + Replies(turns[1..])
  }

  /** The shortest prefix holding `n` successes, or everything when there are fewer. */
  function Attempts<S>(replies: seq<Reply<S>>, n: nat): (r: seq<Reply<S>>)
    ensures r <= replies
  {
    if n == 0 || replies == [] then []
    else [replies[0]] + Attempts(replies[1..], if replies[0].Okay? then n - 1 else n)
  }

  lemma {:induction false} AttemptsIsShortest<S>(replies: seq<Reply<S>>, n: nat)
    ensures var tried := Attempts(replies, n);
      && Okays(tried) == (if Okays(replies) < n then Okays(replies) else n)
      && (Okays(replies) < n ==> tried == replies)
      && forall j :: 0 <= j < |tried| ==> Okays(tried[..j]) < n
  {
    if n == 0 || replies == [] {
    } else {
      var m := if replies[0].Okay? then n - 1 else n;
      var tried, rest := Attempts(replies, n), Attempts(replies[1..], m);
      AttemptsIsShortest(replies[1..], m);
      assert tried[1..] == rest;
      forall j | 0 <= j < |tried| ensures Okays(tried[..j]) < n {
        if j > 0 { assert tried[..j][1..] == rest[..j - 1]; }
      }
    }
  }

  /** Where a consumer stands: the messages not yet done, the failures in a row on the
      first of them, the callback state. */
  datatype Position<S> = Position(msgs: seq<Offset>, failures: nat, cb: S)

  function Advance<S>(at: Position<S>, reply: Reply<S>): Position<S>
    requires at.msgs != []
  {
    match reply
    case Okay(next) => Position(at.msgs[1..], 0, next)
    case Failed(next) => Position(at.msgs, at.failures + 1, next)
    case Malformed => Position(at.msgs, at.failures + 1, at.cb)
  }

  /** Everything attempt number `j` does: call the callback on the first message not yet
      done, then store its offset, or sleep for as long as the failures so far ask. */
  function Attempt<S>(at: Position<S>, tried: seq<Reply<S>>, j: nat): seq<Effect<S>>
    requires j < |tried| && Okays(tried[..j]) < |at.msgs|
  {
    var msg := at.msgs[Okays(tried[..j])];
    [Called([msg], StateAfter(at.cb, tried[..j]))] +
    if tried[j].Okay? then [Stored(msg)] else SleepEffect(DelayAfter(Streak(at.failures, tried[..j])))
  }

  ghost predicate IsAttemptTrace<S>(trace: seq<Effect<S>>, at: Position<S>, tried: seq<Reply<S>>) {
    && (forall j :: 0 <= j < |tried| ==> Okays(tried[..j]) < |at.msgs|)
    && trace == Flatten(seq(|tried|, j requires 0 <= j < |tried| && Okays(tried[..j]) < |at.msgs| =>
                              Attempt(at, tried, j)))
  }

  /** The whole contract of a run: its trace is the list of attempts, it completes exactly
      when there were enough successes, and otherwise only an interruption ends it. */
  ghost predicate OneByOneMeetsSpec<S>(at: Position<S>, turns: seq<Turn<S>>) {
    var run := ProcessEventsOneByOne(at.msgs, DelayAfter(at.failures), at.cb, turns);
    var replies := Replies(turns);
    var tried := Attempts(replies, |at.msgs|);
    && IsAttemptTrace(run.trace, at, tried)
    && (run.outcome.Completed? <==> Okays(replies) >= |at.msgs|)
    && (run.outcome.Completed? ==> run.outcome.state == StateAfter(at.cb, tried))
    && (run.outcome.StoppedBy? <==> Okays(replies) < |at.msgs| && |replies| < |turns|)
    && (run.outcome.StoppedBy? ==> run.outcome.msg == turns[|replies|].msg)
  }

  lemma IsAttemptTraceCons<S>(trace: seq<Effect<S>>, at: Position<S>, tried: seq<Reply<S>>)
    requires tried != [] && at.msgs != []
    requires forall j :: 0 <= j < |tried| ==> Okays(tried[..j]) < |at.msgs|
    requires IsAttemptTrace(trace, Advance(at, tried[0]), tried[1..])
    ensures IsAttemptTrace(Attempt(at, tried, 0) + trace, at, tried)
  {
    var next, rest := Advance(at, tried[0]), tried[1..];
    var blocks := seq(|tried|, j requires 0 <= j < |tried| && Okays(tried[..j]) < |at.msgs| => Attempt(at, tried, j));
    var blocks' := seq(|rest|, j requires 0 <= j < |rest| && Okays(rest[..j]) < |next.msgs| => Attempt(next, rest, j));
    forall j | 0 <= j < |rest| ensures blocks[1..][j] == blocks'[j] {
      assert tried[..j + 1][1..] == rest[..j] && tried[..j + 1][0] == tried[0];
    }
    assert blocks[1..] == blocks';
  }

  /** One turn of the loop is one attempt followed by the loop at the next position. */
  lemma OneByOneUnfolds<S>(at: Position<S>, turns: seq<Turn<S>>)
    requires at.msgs != [] && turns != [] && turns[0].Answered?
    ensures var next := Advance(at, turns[0].reply);
      ProcessEventsOneByOne(at.msgs, DelayAfter(at.failures), at.cb, turns)
        == ProcessEventsOneByOne(next.msgs, DelayAfter(next.failures), next.cb, turns[1..])
             .After(Attempt(at, [turns[0].reply], 0))
  {
    var first := turns[0].reply;
    var next := Advance(at, first);
    var rest := ProcessEventsOneByOne(next.msgs, DelayAfter(next.failures), next.cb, turns[1..]);
    BackoffFollowsFailures(at.failures);
    assert [first][..0] == [];
    var call := [Called([at.msgs[0]], at.cb)];
    var own := if first.Okay? then [Stored(at.msgs[0])] else SleepEffect(DelayAfter(at.failures));
    assert HandleMessage(at.msgs, DelayAfter(at.failures), at.cb, first, turns[1..]) == rest.After(own);
    assert call + (own + rest.trace) == (call + own) + rest.trace;
  }

  /** The attempts of a script whose first turn is answered. */
  lemma AttemptsUnfold<S>(at: Position<S>, turns: seq<Turn<S>>)
    requires at.msgs != [] && turns != [] && turns[0].Answered?
    ensures var (first, next) := (turns[0].reply, Advance(at, turns[0].reply));
      var (replies, rest) := (Replies(turns), Replies(turns[1..]));
      var (tried, later) := (Attempts(replies, |at.msgs|), Attempts(rest, |next.msgs|));
      && replies == [first] + rest && tried == [first] + later && tried[0] == first && tried[1..] == later
      && Okays(replies) == (if first.Okay? then 1 else 0) + Okays(rest)
      && StateAfter(at.cb, tried) == StateAfter(next.cb, later)
      && forall j :: 0 <= j < |tried| ==> Okays(tried[..j]) < |at.msgs|
  {
    var (first, next) := (turns[0].reply, Advance(at, turns[0].reply));
    var (replies, rest) := (Replies(turns), Replies(turns[1..]));
    assert replies[1..] == rest;
    var (tried, later) := (Attempts(replies, |at.msgs|), Attempts(rest, |next.msgs|));
    assert tried[1..] == later;
    AttemptsIsShortest(replies, |at.msgs|);
  }

  lemma OneByOneExtends<S>(at: Position<S>, turns: seq<Turn<S>>)
    requires at.msgs != [] && turns != [] && turns[0].Answered?
    requires OneByOneMeetsSpec(Advance(at, turns[0].reply), turns[1..])
    ensures OneByOneMeetsSpec(at, turns)
  {
    OneByOneUnfolds(at, turns);
    AttemptsUnfold(at, turns);
    hide ProcessEventsOneByOne, Attempts, Replies, Okays, StateAfter, DelayAfter, IsAttemptTrace, Attempt;
    var next, tried := Advance(at, turns[0].reply), Attempts(Replies(turns), |at.msgs|);
    var rest := ProcessEventsOneByOne(next.msgs, DelayAfter(next.failures), next.cb, turns[1..]);
    TraceExtends(at, tried, rest.trace);
    FirstAttempt(at, tried);
  }

  lemma TraceExtends<S>(at: Position<S>, tried: seq<Reply<S>>, rest: seq<Effect<S>>)
    requires tried != [] && at.msgs != [] && forall j :: 0 <= j < |tried| ==> Okays(tried[..j]) < |at.msgs|
    requires IsAttemptTrace(rest, Advance(at, tried[0]), tried[1..])
    ensures IsAttemptTrace(Attempt(at, [tried[0]], 0) + rest, at, tried)
  {
    IsAttemptTraceCons(rest, at, tried);
    FirstAttempt(at, tried);
    hide IsAttemptTrace, Attempt, Okays;
  }

  lemma FirstAttempt<S>(at: Position<S>, tried: seq<Reply<S>>)
    requires tried != [] && at.msgs != []
    ensures Okays(tried[..0]) == Okays([tried[0]][..0]) == 0
    ensures Attempt(at, tried, 0) == Attempt(at, [tried[0]], 0)
  {
    assert tried[..0] == [] == [tried[0]][..0];
  }

  /** Theorem. Every run, for every message list, script of replies and stop arrival. */
  lemma {:induction false} OneByOneRefinesSpec<S>(at: Position<S>, turns: seq<Turn<S>>)
    ensures OneByOneMeetsSpec(at, turns)
    decreases |turns|
  {
    if at.msgs == [] || turns == [] || turns[0].Interrupted? {
    } else {
      OneByOneRefinesSpec(Advance(at, turns[0].reply), turns[1..]);
      OneByOneExtends(at, turns);
    }
  }

  // ------------------------------------------------------ what the trace implies

  function StoredIn<S>(trace: seq<Effect<S>>): seq<int> {
    if trace == [] then []
    else (if trace[0].Stored? then [trace[0].offset] else []) + StoredIn(trace[1..])
  }

  function SleptIn<S>(trace: seq<Effect<S>>): nat {
    if trace == [] then 0
    else (if trace[0].Slept? then trace[0].ms else 0) + SleptIn(trace[1..])
  }

  lemma {:induction false} TraceAppend<S>(a: seq<Effect<S>>, b: seq<Effect<S>>)
    ensures StoredIn(a + b) == StoredIn(a) + StoredIn(b)
    ensures SleptIn(a + b) == SleptIn(a) + SleptIn(b)
  {
    var c := a + b;
    if a == [] {
      assert c == b;
    } else {
      assert c[0] == a[0] && c[1..] == a[1..] + b;
      TraceAppend(a[1..], b);
      var own := if a[0].Stored? then [a[0].offset] else [];
      assert own + (StoredIn(a[1..]) + StoredIn(b)) == (own + StoredIn(a[1..])) + StoredIn(b);
    }
  }

  lemma AttemptSums<S>(batch: seq<Offset>, cb: S, ms: nat, offset: int)
    ensures StoredIn([Called(batch, cb)] + SleepEffect(ms)) == [] &&
      SleptIn([Called(batch, cb)] + SleepEffect(ms)) == ms
    ensures StoredIn([Called(batch, cb)] + [Stored(offset)]) == [offset]
  {
    var sleep, store := SleepEffect<S>(ms), [Stored(offset)];
    assert sleep != [] ==> sleep[1..] == [];
    assert StoredIn(sleep) == [] && SleptIn(sleep) == ms;
    assert store[1..] == [] && StoredIn(store) == [offset];
    var call: seq<Effect<S>> := [Called(batch, cb)];
    assert call[1..] == [] && StoredIn(call) == [] && SleptIn(call) == 0;
    TraceAppend(call, sleep);
    TraceAppend(call, store);
  }

  /** When the callback is entered at place `i`, exactly the messages before its own have
      been stored. */
  ghost predicate EnteredInOrder<S>(trace: seq<Effect<S>>, msgs: seq<Offset>, i: nat)
    requires i < |trace|
  {
    var before := StoredIn(trace[..i]);
    trace[i].Called? ==>
      |before| < |msgs| && before == msgs[..|before|] && trace[i].batch == [msgs[|before|]]
  }

  ghost predicate StoresSuccessfulPrefix<S>(trace: seq<Effect<S>>, msgs: seq<Offset>, oks: nat) {
    && oks <= |msgs|
    && StoredIn(trace) == msgs[..oks]
    && forall i :: 0 <= i < |trace| ==> EnteredInOrder(trace, msgs, i)
  }

  lemma StoredLater<S>(own: seq<Effect<S>>, rest: seq<Effect<S>>, k: nat)
    requires k < |rest|
    ensures (own + rest)[|own| + k] == rest[k]
    ensures StoredIn((own + rest)[..|own| + k]) == StoredIn(own) + StoredIn(rest[..k])
  {
    assert (own + rest)[..|own| + k] == own + rest[..k];
    TraceAppend(own, rest[..k]);
  }

  lemma EnteredLater<S>(own: seq<Effect<S>>, rest: seq<Effect<S>>, msgs: seq<Offset>, done: nat, k: nat)
    requires k < |rest| && done <= |msgs| && StoredIn(own) == msgs[..done]
    requires EnteredInOrder(rest, msgs[done..], k)
    ensures EnteredInOrder(own + rest, msgs, |own| + k)
  {
    hide StoredIn;
    StoredLater(own, rest, k);
    if rest[k].Called? {
      PrefixThenPrefix(msgs, done, |StoredIn(rest[..k])|);
    }
  }

  lemma PrefixThenPrefix(msgs: seq<Offset>, m: nat, n: nat)
    requires m <= |msgs| && n < |msgs| - m
    ensures msgs[..m] + msgs[m..][..n] == msgs[..m + n] && msgs[m..][n] == msgs[m + n]
  {
  }

  lemma PrefixExtends<S>(at: Position<S>, reply: Reply<S>, rest: seq<Effect<S>>, oks: nat)
    requires at.msgs != []
    requires StoresSuccessfulPrefix(rest, Advance(at, reply).msgs, oks)
    ensures StoresSuccessfulPrefix(Attempt(at, [reply], 0) + rest, at.msgs, if reply.Okay? then oks + 1 else oks)
  {
    assert [reply][..0] == [];
    var own := Attempt(at, [reply], 0);
    var done := if reply.Okay? then 1 else 0;
    AttemptSums([at.msgs[0]], at.cb, DelayAfter(at.failures), at.msgs[0]);
    assert StoredIn(own) == at.msgs[..done] && Advance(at, reply).msgs == at.msgs[done..];
    TraceAppend(own, rest);
    forall i | 0 <= i < |own + rest| ensures EnteredInOrder(own + rest, at.msgs, i) {
      if i >= |own| {
        EnteredLater(own, rest, at.msgs, done, i - |own|);
      } else if i == 0 {
        assert (own + rest)[..0] == [];
      }
    }
  }

  lemma {:induction false} OneByOneStoresSuccessfulPrefix<S>(at: Position<S>, turns: seq<Turn<S>>)
    ensures var run := ProcessEventsOneByOne(at.msgs, DelayAfter(at.failures), at.cb, turns);
      StoresSuccessfulPrefix(run.trace, at.msgs, Okays(Attempts(Replies(turns), |at.msgs|)))
    decreases |turns|
  {
    if at.msgs == [] || turns == [] || turns[0].Interrupted? {
    } else {
      var first := turns[0].reply;
      var next := Advance(at, first);
      OneByOneStoresSuccessfulPrefix(next, turns[1..]);
      OneByOneUnfolds(at, turns);
      var rest := ProcessEventsOneByOne(next.msgs, DelayAfter(next.failures), next.cb, turns[1..]);
      assert Replies(turns)[1..] == Replies(turns[1..]);
      var tried := Attempts(Replies(turns), |at.msgs|);
      assert tried[1..] == Attempts(Replies(turns[1..]), |next.msgs|) && tried[0] == first;
      PrefixExtends(at, first, rest.trace, Okays(tried[1..]));
    }
  }

  // ----------------------------------------------------------------- whole batch

  predicate Decides<S>(turn: BatchTurn<S>) {
    turn.reply.Okay? || turn.waiting.Some?
  }

  /** The turns a batch run uses: up to the first success or the first stop request seen. */
  function BatchAttempts<S>(turns: seq<BatchTurn<S>>): seq<BatchTurn<S>> {
    if turns == [] then []
    else [turns[0]] + if Decides(turns[0]) then [] else BatchAttempts(turns[1..])
  }

  lemma {:induction false} BatchAttemptsIsShortest<S>(turns: seq<BatchTurn<S>>)
    ensures var tried := BatchAttempts(turns);
      && tried <= turns
      && (forall j :: 0 <= j < |tried| - 1 ==> !Decides(tried[j]))
      && (|tried| < |turns| ==> tried != [] && Decides(tried[|tried| - 1]))
  {
    if turns == [] || Decides(turns[0]) {
    } else {
      BatchAttemptsIsShortest(turns[1..]);
      assert BatchAttempts(turns)[1..] == BatchAttempts(turns[1..]);
    }
  }

  function BatchReplies<S>(turns: seq<BatchTurn<S>>): seq<Reply<S>> {
    if turns == [] then [] else [turns[0].reply] + BatchReplies(turns[1..])
  }

  function BatchAttempt<S>(at: Position<S>, last: int, tried: seq<BatchTurn<S>>, j: nat): seq<Effect<S>>
    requires j < |tried|
  {
    [Called(at.msgs, StateAfter(at.cb, BatchReplies(tried[..j])))] +
    if tried[j].reply.Okay? then [Stored(last)]
    else if tried[j].waiting.Some? then []
    else SleepEffect(DelayAfter(at.failures + j))
  }

  ghost predicate IsBatchTrace<S>(trace: seq<Effect<S>>, at: Position<S>, last: int, tried: seq<BatchTurn<S>>) {
    trace == Flatten(seq(|tried|, j requires 0 <= j < |tried| => BatchAttempt(at, last, tried, j)))
  }

  ghost predicate BatchMeetsSpec<S>(at: Position<S>, last: int, turns: seq<BatchTurn<S>>) {
    var run := ProcessEventsBatch(at.msgs, last, DelayAfter(at.failures), at.cb, turns);
    var tried := BatchAttempts(turns);
    var n := |tried|;
    && IsBatchTrace(run.trace, at, last, tried)
    && (run.outcome.Completed? <==> n > 0 && tried[n - 1].reply.Okay?)
    && (run.outcome.Completed? ==> run.outcome.state == StateAfter(at.cb, BatchReplies(tried)))
    && (run.outcome.StoppedBy? <==> n > 0 && !tried[n - 1].reply.Okay? && tried[n - 1].waiting.Some?)
    && (run.outcome.StoppedBy? ==> run.outcome.msg == tried[n - 1].waiting.value)
    && StoredIn(run.trace) == (if run.outcome.Completed? then [last] else [])
  }

  /** A failed attempt nothing interrupts is followed by the loop at the next position. */
  lemma BatchUnfolds<S>(at: Position<S>, last: int, turns: seq<BatchTurn<S>>)
    requires at.msgs != [] && turns != [] && !turns[0].reply.Okay? && turns[0].waiting.None?
    ensures var next := Advance(at, turns[0].reply);
      ProcessEventsBatch(at.msgs, last, DelayAfter(at.failures), at.cb, turns)
        == ProcessEventsBatch(next.msgs, last, DelayAfter(next.failures), next.cb, turns[1..])
             .After(BatchAttempt(at, last, turns[..1], 0))
  {
    var next := Advance(at, turns[0].reply);
    var rest := ProcessEventsBatch(next.msgs, last, DelayAfter(next.failures), next.cb, turns[1..]);
    BackoffFollowsFailures(at.failures);
    var call, own := [Called(at.msgs, at.cb)], SleepEffect<S>(DelayAfter(at.failures));
    assert HandleBackoffOrStop(at.msgs, last, DelayAfter(at.failures), next.cb, None, turns[1..]) == rest.After(own);
    assert BatchReplies(turns[..1][..0]) == [];
    assert call + (own + rest.trace) == (call + own) + rest.trace;
  }

  lemma BatchBlocks<S>(at: Position<S>, last: int, tried: seq<BatchTurn<S>>, rest: seq<Effect<S>>)
    requires at.msgs != [] && tried != [] && !tried[0].reply.Okay?
    requires IsBatchTrace(rest, Advance(at, tried[0].reply), last, tried[1..])
    ensures IsBatchTrace(BatchAttempt(at, last, tried[..1], 0) + rest, at, last, tried)
  {
    var next, n := Advance(at, tried[0].reply), |tried|;
    var blocks := seq(n, j requires 0 <= j < n => BatchAttempt(at, last, tried, j));
    var blocks' := seq(n - 1, j requires 0 <= j < n - 1 => BatchAttempt(next, last, tried[1..], j));
    assert tried[..1][..0] == tried[..0];
    forall j | 0 <= j < n - 1 ensures blocks[1..][j] == blocks'[j] {
      assert tried[..j + 1][1..] == tried[1..][..j] && tried[..j + 1][0] == tried[0];
    }
    assert blocks[1..] == blocks';
  }

  lemma BatchAttemptStoresNothing<S>(at: Position<S>, last: int, turns: seq<BatchTurn<S>>)
    requires turns != [] && !turns[0].reply.Okay? && turns[0].waiting.None?
    ensures StoredIn(BatchAttempt(at, last, turns[..1], 0)) == []
    ensures SleptIn(BatchAttempt(at, last, turns[..1], 0)) == DelayAfter(at.failures)
  {
    assert BatchReplies(turns[..1][..0]) == [];
    AttemptSums(at.msgs, at.cb, DelayAfter(at.failures), last);
  }

  lemma BatchAttemptsUnfold<S>(at: Position<S>, turns: seq<BatchTurn<S>>)
    requires at.msgs != [] && turns != [] && !Decides(turns[0])
    ensures var tried, later := BatchAttempts(turns), BatchAttempts(turns[1..]);
      && tried == [turns[0]] + later && tried[..1] == turns[..1] && tried[1..] == later
      && StateAfter(at.cb, BatchReplies(tried)) == StateAfter(Advance(at, turns[0].reply).cb, BatchReplies(later))
  {
    var tried, later := BatchAttempts(turns), BatchAttempts(turns[1..]);
    assert tried == [turns[0]] + later && tried[1..] == later;
    assert BatchReplies(tried)[1..] == BatchReplies(later);
  }

  lemma BatchExtends<S>(at: Position<S>, last: int, turns: seq<BatchTurn<S>>)
    requires at.msgs != [] && turns != [] && !turns[0].reply.Okay? && turns[0].waiting.None?
    requires BatchMeetsSpec(Advance(at, turns[0].reply), last, turns[1..])
    ensures BatchMeetsSpec(at, last, turns)
  {
    var next := Advance(at, turns[0].reply);
    var rest := ProcessEventsBatch(next.msgs, last, DelayAfter(next.failures), next.cb, turns[1..]);
    var tried := BatchAttempts(turns);
    BatchUnfolds(at, last, turns);
    BatchAttemptsUnfold(at, turns);
    hide ProcessEventsBatch, BatchAttempts, BatchReplies, StateAfter, IsBatchTrace, BatchAttempt, StoredIn, SleptIn,
      DelayAfter;
    BatchBlocks(at, last, tried, rest.trace);
    BatchAttemptStoresNothing(at, last, turns);
    TraceAppend(BatchAttempt(at, last, turns[..1], 0), rest.trace);
    assert [] + StoredIn(rest.trace) == StoredIn(rest.trace);
  }

  lemma BatchEnds<S>(at: Position<S>, last: int, turns: seq<BatchTurn<S>>)
    requires at.msgs != [] && turns != [] && (turns[0].reply.Okay? || turns[0].waiting.Some?)
    ensures BatchMeetsSpec(at, last, turns)
  {
    var tried := BatchAttempts(turns);
    var run := ProcessEventsBatch(at.msgs, last, DelayAfter(at.failures), at.cb, turns);
    assert tried == [turns[0]];
    assert BatchReplies(tried[..0]) == [] && BatchReplies(tried)[1..] == [];
    var call := [Called(at.msgs, at.cb)];
    var own: seq<Effect<S>> := if turns[0].reply.Okay? then [Stored(last)] else [];
    if !turns[0].reply.Okay? {
      var cb := Advance(at, turns[0].reply).cb;
      var retry := HandleBackoffOrStop(at.msgs, last, DelayAfter(at.failures), cb, turns[0].waiting, turns[1..]);
      assert run == retry.After(call);
    }
    assert run.trace == call + own;
    assert call + own == BatchAttempt(at, last, tried, 0);
    TraceAppend(call, own);
    assert own[..0] == [] && (own != [] ==> own[1..] == []);
    FlattenOne(call + own);
    assert seq(1, j requires 0 <= j < 1 => BatchAttempt(at, last, tried, j)) == [call + own];
  }

  /** Theorem. A batch is handed over whole on every attempt; its last offset is stored once,
      right after the attempt that succeeds, and not at all when a stop request ends it. */
  lemma {:induction false} BatchRefinesSpec<S>(at: Position<S>, last: int, turns: seq<BatchTurn<S>>)
    requires at.msgs != []
    ensures BatchMeetsSpec(at, last, turns)
    decreases |turns|
  {
    if turns == [] {
    } else if turns[0].reply.Okay? || turns[0].waiting.Some? {
      BatchEnds(at, last, turns);
    } else {
      BatchRefinesSpec(Advance(at, turns[0].reply), last, turns[1..]);
      BatchExtends(at, last, turns);
    }
  }

  ghost predicate HandsOver<S>(trace: seq<Effect<S>>, i: nat, msgs: seq<Offset>, last: int)
    requires i < |trace|
  {
    && (trace[i].Called? ==> trace[i].batch == msgs)
    && (trace[i].Stored? ==> i == |trace| - 1 && i > 0 && trace[i - 1].Called? && trace[i].offset == last)
    && (trace[i].Slept? ==> i > 0 && trace[i - 1].Called?)
  }

  /** Every callback of a batch run is given the whole batch, a store comes last, right after a
      callback, and so does every sleep come right after one. */
  ghost predicate HandsOverAll<S>(trace: seq<Effect<S>>, msgs: seq<Offset>, last: int) {
    (trace != [] ==> trace[0].Called?) && forall i :: 0 <= i < |trace| ==> HandsOver(trace, i, msgs, last)
  }

  /** Theorem. Each attempt at a batch is an attempt at all of it. */
  lemma {:induction false} BatchHandsOverAll<S>(at: Position<S>, last: int, turns: seq<BatchTurn<S>>)
    requires at.msgs != []
    ensures HandsOverAll(ProcessEventsBatch(at.msgs, last, DelayAfter(at.failures), at.cb, turns).trace, at.msgs, last)
    decreases |turns|
  {
    if turns == [] {
    } else if Decides(turns[0]) {
      LastAttempt(at, last, turns);
    } else {
      var next, own := Advance(at, turns[0].reply), [Called(at.msgs, at.cb)] + SleepEffect(DelayAfter(at.failures));
      BatchHandsOverAll(next, last, turns[1..]);
      BatchUnfolds(at, last, turns);
      assert BatchReplies(turns[..1][..0]) == [];
      var rest := ProcessEventsBatch(next.msgs, last, DelayAfter(next.failures), next.cb, turns[1..]).trace;
      assert BatchAttempt(at, last, turns[..1], 0) == own;
      HandsOverMore(own, rest, at.msgs, last);
    }
  }

  lemma HandsOverMore<S>(own: seq<Effect<S>>, rest: seq<Effect<S>>, msgs: seq<Offset>, last: int)
    requires own != [] && own[0].Called? && own[0].batch == msgs && HandsOverAll(rest, msgs, last)
    requires |own| <= 2 && forall i :: 0 < i < |own| ==> own[i].Slept?
    ensures HandsOverAll(own + rest, msgs, last)
  {
    var trace := own + rest;
    forall i | 0 <= i < |trace| ensures HandsOver(trace, i, msgs, last) {
      if i >= |own| {
        assert trace[i] == rest[i - |own|] && HandsOver(rest, i - |own|, msgs, last);
        if i > |own| { assert trace[i - 1] == rest[i - 1 - |own|]; }
      } else {
        assert trace[i] == own[i];
      }
    }
  }

  lemma LastAttempt<S>(at: Position<S>, last: int, turns: seq<BatchTurn<S>>)
    requires at.msgs != [] && turns != [] && Decides(turns[0])
    ensures ProcessEventsBatch(at.msgs, last, DelayAfter(at.failures), at.cb, turns).trace ==
      [Called(at.msgs, at.cb)] + if turns[0].reply.Okay? then [Stored(last)] else []
  {
    if !turns[0].reply.Okay? {
      var cb := Advance(at, turns[0].reply).cb;
      var stop := HandleBackoffOrStop(at.msgs, last, DelayAfter(at.failures), cb, turns[0].waiting, turns[1..]);
      assert ProcessEventsBatch(at.msgs, last, DelayAfter(at.failures), at.cb, turns) ==
        stop.After([Called(at.msgs, at.cb)]);
    }
  }

  /** Whatever is stored or slept comes right after a callback. */
  ghost predicate FollowsCalls<S>(trace: seq<Effect<S>>) {
    && (trace != [] ==> trace[0].Called?)
    && forall i :: 0 < i < |trace| && !trace[i].Called? ==> trace[i - 1].Called?
  }

  lemma FollowsMore<S>(own: seq<Effect<S>>, rest: seq<Effect<S>>)
    requires 0 < |own| <= 2 && own[0].Called? && FollowsCalls(rest)
    ensures FollowsCalls(own + rest)
  {
    var trace := own + rest;
    forall i | 0 < i < |trace| && !trace[i].Called? ensures trace[i - 1].Called? {
      if i > |own| { assert trace[i] == rest[i - |own|] && trace[i - 1] == rest[i - 1 - |own|]; }
    }
  }

  /** Theorem. One by one, a store or a sleep follows the callback it is the answer to at once: nothing
      is stored or slept before a callback. */
  lemma {:induction false} StoresAndSleepsFollowCalls<S>(at: Position<S>, turns: seq<Turn<S>>)
    ensures FollowsCalls(ProcessEventsOneByOne(at.msgs, DelayAfter(at.failures), at.cb, turns).trace)
    decreases |turns|
  {
    if at.msgs == [] || turns == [] || turns[0].Interrupted? {
    } else {
      var next, own := Advance(at, turns[0].reply), Attempt(at, [turns[0].reply], 0);
      StoresAndSleepsFollowCalls(next, turns[1..]);
      OneByOneUnfolds(at, turns);
      hide ProcessEventsOneByOne, Okays, StateAfter, Streak, DelayAfter;
      assert [turns[0].reply][..0] == [];
      FollowsMore(own, ProcessEventsOneByOne(next.msgs, DelayAfter(next.failures), next.cb, turns[1..]).trace);
    }
  }

  // ------------------------------------------------------- the state each callback is given

  function StatesIn<S>(trace: seq<Effect<S>>): seq<S> {
    if trace == [] then []
    else (if trace[0].Called? then [trace[0].state] else []) + StatesIn(trace[1..])
  }

  lemma {:induction false} StatesAppend<S>(a: seq<Effect<S>>, b: seq<Effect<S>>)
    ensures StatesIn(a + b) == StatesIn(a) + StatesIn(b)
  {
    if a == [] {
      assert a + b == b;
    } else {
      assert (a + b)[0] == a[0] && (a + b)[1..] == a[1..] + b;
      StatesAppend(a[1..], b);
    }
  }

  lemma StatesOfAttempt<S>(call: Effect<S>, own: seq<Effect<S>>)
    requires call.Called? && |own| <= 1 && forall e :: e in own ==> !e.Called?
    ensures StatesIn([call] + own) == [call.state]
  {
    StatesAppend([call], own);
    assert [call][1..] == [] && (own != [] ==> own[0] in own && own[1..] == []);
  }

  /** The states that callbacks answering so would be given, one after another. */
  function StatesGiven<S>(cb: S, replies: seq<Reply<S>>): (r: seq<S>)
    ensures |r| == |replies| && forall j :: 0 <= j < |r| ==> r[j] == StateAfter(cb, replies[..j])
  {
    seq(|replies|, j requires 0 <= j < |replies| => StateAfter(cb, replies[..j]))
  }

  lemma StatesGivenCons<S>(cb: S, replies: seq<Reply<S>>)
    requires replies != []
    ensures StatesGiven(cb, replies) ==
      [cb] + StatesGiven(if replies[0].Malformed? then cb else replies[0].state, replies[1..])
  {
    var next, rest := if replies[0].Malformed? then cb else replies[0].state, replies[1..];
    assert replies[..0] == [];
    forall j | 0 < j < |replies| ensures StatesGiven(cb, replies)[j] == StatesGiven(next, rest)[j - 1] {
      assert replies[..j][0] == replies[0] && replies[..j][1..] == rest[..j - 1];
    }
  }

  /** Theorem. Callbacks are called one after another with the state that the replies so far have
      left, in both modes, as often as there are attempts. */
  lemma {:induction false} OneByOneStates<S>(at: Position<S>, turns: seq<Turn<S>>)
    ensures StatesIn(ProcessEventsOneByOne(at.msgs, DelayAfter(at.failures), at.cb, turns).trace) ==
      StatesGiven(at.cb, Attempts(Replies(turns), |at.msgs|))
    decreases |turns|
  {
    if at.msgs == [] || turns == [] || turns[0].Interrupted? {
    } else {
      var next, own := Advance(at, turns[0].reply), Attempt(at, [turns[0].reply], 0);
      OneByOneStates(next, turns[1..]);
      OneByOneUnfolds(at, turns);
      AttemptsUnfold(at, turns);
      StatesGivenCons(at.cb, Attempts(Replies(turns), |at.msgs|));
      hide ProcessEventsOneByOne, Attempts, Replies, Okays, Streak, DelayAfter, StatesIn, StatesGiven;
      assert [turns[0].reply][..0] == [];
      StatesOfAttempt(own[0], own[1..]);
      assert own == [own[0]] + own[1..];
      StatesAppend(own, ProcessEventsOneByOne(next.msgs, DelayAfter(next.failures), next.cb, turns[1..]).trace);
    }
  }

  lemma {:induction false} BatchStates<S>(at: Position<S>, last: int, turns: seq<BatchTurn<S>>)
    requires at.msgs != []
    ensures StatesIn(ProcessEventsBatch(at.msgs, last, DelayAfter(at.failures), at.cb, turns).trace) ==
      StatesGiven(at.cb, BatchReplies(BatchAttempts(turns)))
    decreases |turns|
  {
    if turns == [] {
    } else {
      var replies := BatchReplies(BatchAttempts(turns));
      StatesGivenCons(at.cb, replies);
      var call, stored: seq<Effect<S>> := Called(at.msgs, at.cb), if turns[0].reply.Okay? then [Stored(last)] else [];
      if Decides(turns[0]) {
        LastAttempt(at, last, turns);
        StatesOfAttempt(call, stored);
        assert StatesGiven(if replies[0].Malformed? then at.cb else replies[0].state, []) == [];
        assert replies[1..] == [];
      } else {
        var next, own := Advance(at, turns[0].reply), SleepEffect<S>(DelayAfter(at.failures));
        BatchStates(next, last, turns[1..]);
        BatchUnfolds(at, last, turns);
        assert replies[1..] == BatchReplies(BatchAttempts(turns[1..]));
        assert BatchReplies(turns[..1][..0]) == [];
        hide ProcessEventsBatch, BatchAttempts, BatchReplies, DelayAfter, StatesIn, StatesGiven;
        StatesOfAttempt(call, own);
        StatesAppend([call] + own,
                     ProcessEventsBatch(next.msgs, last, DelayAfter(next.failures), next.cb, turns[1..]).trace);
      }
    }
  }

  // ------------------------------------------------------------- time spent asleep

  function DelaySum(failures: nat, k: nat): nat
    decreases k
  {
    if k == 0 then 0 else DelayAfter(failures) + DelaySum(failures + 1, k - 1)
  }

  function Pow2(n: nat): nat {
    if n == 0 then 1 else 2 * Pow2(n - 1)
  }

  lemma {:induction false} DelaySumBeyond(failures: nat, k: nat)
    requires failures >= 4
    ensures DelaySum(failures, k) == 4000 * k
    decreases k
  {
    if k == 0 {
    } else {
      DelaySumBeyond(failures + 1, k - 1);
    }
  }

  lemma DelaySumClosed(k: nat)
    requires k >= 1
    ensures DelaySum(0, k) == if k <= 4 then 500 * (Pow2(k - 1) - 1) else 3500 + 4000 * (k - 4)
  {
    assert Pow2(0) == 1 && Pow2(1) == 2 && Pow2(2) == 4 && Pow2(3) == 8;
    if k <= 4 {
      assert DelaySum(0, k) == if k == 1 then 0 else if k == 2 then 500 else if k == 3 then 1500 else 3500;
    } else {
      DelaySumBeyond(4, k - 4);
      assert DelaySum(2, k - 2) == DelayAfter(2) + DelayAfter(3) + DelaySum(4, k - 4);
      assert DelaySum(0, k) == DelayAfter(0) + DelayAfter(1) + DelayAfter(2) + DelayAfter(3) + DelaySum(4, k - 4);
    }
  }

  ghost predicate AllFail<S>(turns: seq<Turn<S>>) {
    forall i :: 0 <= i < |turns| ==> turns[i].Answered? && !turns[i].reply.Okay?
  }

  lemma {:induction false} OneByOneSleeps<S>(at: Position<S>, turns: seq<Turn<S>>)
    requires at.msgs != [] && AllFail(turns)
    ensures SleptIn(ProcessEventsOneByOne(at.msgs, DelayAfter(at.failures), at.cb, turns).trace)
         == DelaySum(at.failures, |turns|)
    decreases |turns|
  {
    if turns == [] {
    } else {
      TurnSleeps(at, turns);
      OneByOneSleeps(Advance(at, turns[0].reply), turns[1..]);
    }
  }

  lemma {:induction false} BatchSleeps<S>(at: Position<S>, last: int, turns: seq<BatchTurn<S>>)
    requires at.msgs != []
    requires forall i :: 0 <= i < |turns| ==> turns[i].waiting.None? && !turns[i].reply.Okay?
    ensures SleptIn(ProcessEventsBatch(at.msgs, last, DelayAfter(at.failures), at.cb, turns).trace)
         == DelaySum(at.failures, |turns|)
    decreases |turns|
  {
    if turns == [] {
    } else {
      var next := Advance(at, turns[0].reply);
      BatchSleeps(next, last, turns[1..]);
      var rest := ProcessEventsBatch(next.msgs, last, DelayAfter(next.failures), next.cb, turns[1..]).trace;
      var own := BatchAttempt(at, last, turns[..1], 0);
      BatchUnfolds(at, last, turns);
      TraceAppend(own, rest);
      BatchAttemptStoresNothing(at, last, turns);
    }
  }

  /** Time asleep over `k` failures in a row, the first of them the first since a success. */
  function TotalSleep(k: nat): int {
    if k == 0 then 0 else if k <= 4 then 500 * (Pow2(k - 1) - 1) else 3500 + 4000 * (k - 4)
  }

  lemma {:induction false} SleepsAroundSuccess<S>(at: Position<S>, turns: seq<Turn<S>>, n: nat)
    requires |at.msgs| >= 2 && n < |turns| && turns[n].Answered? && turns[n].reply.Okay?
    requires AllFail(turns[..n]) && AllFail(turns[n + 1..])
    ensures SleptIn(ProcessEventsOneByOne(at.msgs, DelayAfter(at.failures), at.cb, turns).trace)
         == DelaySum(at.failures, n) + DelaySum(0, |turns| - n - 1)
    decreases n
  {
    hide ProcessEventsOneByOne, SleptIn, AllFail;
    FirstTurn(turns, n);
    TurnSleeps(at, turns);
    if n == 0 {
      OneByOneSleeps(Advance(at, turns[0].reply), turns[1..]);
    } else {
      SleepsAroundSuccess(Advance(at, turns[0].reply), turns[1..], n - 1);
    }
  }

  lemma FirstTurn<S>(turns: seq<Turn<S>>, n: nat)
    requires n < |turns| && turns[n].Answered? && turns[n].reply.Okay? && AllFail(turns[..n]) && AllFail(turns[n + 1..])
    ensures turns[0].Answered? && (turns[0].reply.Okay? <==> n == 0)
    ensures n > 0 ==> turns[1..][n - 1] == turns[n] && AllFail(turns[1..][..n - 1]) && AllFail(turns[1..][n..])
  {
    if n > 0 {
      assert turns[..n][0] == turns[0];
      assert turns[1..][..n - 1] == turns[..n][1..] && turns[1..][n..] == turns[n + 1..];
    }
  }

  /** How long a turn of the loop sleeps. */
  lemma TurnSleeps<S>(at: Position<S>, turns: seq<Turn<S>>)
    requires at.msgs != [] && turns != [] && turns[0].Answered?
    ensures var next := Advance(at, turns[0].reply);
      SleptIn(ProcessEventsOneByOne(at.msgs, DelayAfter(at.failures), at.cb, turns).trace) ==
        (if turns[0].reply.Okay? then 0 else DelayAfter(at.failures)) +
        SleptIn(ProcessEventsOneByOne(next.msgs, DelayAfter(next.failures), next.cb, turns[1..]).trace)
  {
    var first, next := turns[0].reply, Advance(at, turns[0].reply);
    OneByOneUnfolds(at, turns);
    assert [first][..0] == [];
    var rest := ProcessEventsOneByOne(next.msgs, DelayAfter(next.failures), next.cb, turns[1..]).trace;
    TraceAppend(Attempt(at, [first], 0), rest);
    AttemptSums([at.msgs[0]], at.cb, DelayAfter(at.failures), at.msgs[0]);
    StoreSleepsNot(at.msgs[0], at.cb);
  }

  lemma StoreSleepsNot<S>(m: Offset, cb: S)
    ensures SleptIn([Called([m], cb)] + [Stored(m)]) == 0
  {
    var call, store: seq<Effect<S>> := [Called([m], cb)], [Stored(m)];
    assert call[1..] == [] && call[0] == Called([m], cb) && SleptIn(call[1..]) == 0;
    assert store[1..] == [] && store[0] == Stored(m) && SleptIn(store[1..]) == 0;
    TraceAppend(call, store);
  }

  /** Theorem. A success resets the backoff: `n` failures, a success and more failures on the next
      message sleep as long as the two streaks would by themselves. */
  lemma SuccessResetsBackoff<S>(msgs: seq<Offset>, cb: S, turns: seq<Turn<S>>, n: nat)
    requires |msgs| >= 2 && n < |turns| && turns[n].Answered? && turns[n].reply.Okay?
    requires AllFail(turns[..n]) && AllFail(turns[n + 1..])
    ensures SleptIn(ProcessEventsOneByOne(msgs, 0, cb, turns).trace) == TotalSleep(n) + TotalSleep(|turns| - n - 1)
  {
    SleepsAroundSuccess(Position(msgs, 0, cb), turns, n);
    hide ProcessEventsOneByOne, SleptIn, AllFail, TotalSleep, DelaySum;
    DelaySumIsTotal(n);
    DelaySumIsTotal(|turns| - n - 1);
  }

  lemma DelaySumIsTotal(k: nat)
    ensures DelaySum(0, k) == TotalSleep(k)
  {
    if k > 0 { DelaySumClosed(k); }
  }

  /** Theorem. Time asleep after `k` failures in a row, in either mode. */
  lemma SleepAfterFailures<S>(msgs: seq<Offset>, last: int, cb: S, turns: seq<Turn<S>>, batch: seq<BatchTurn<S>>)
    requires msgs != [] && |turns| == |batch| >= 1
    requires forall i :: 0 <= i < |turns| ==> turns[i].Answered? && !turns[i].reply.Okay?
    requires forall i :: 0 <= i < |batch| ==> batch[i].waiting.None? && !batch[i].reply.Okay?
    ensures var k := |turns|;
      SleptIn(ProcessEventsOneByOne(msgs, 0, cb, turns).trace)
        == SleptIn(ProcessEventsBatch(msgs, last, 0, cb, batch).trace)
        == TotalSleep(k)
        == if k <= 4 then 500 * (Pow2(k - 1) - 1) else 3500 + 4000 * (k - 4)
  {
    OneByOneSleeps(Position(msgs, 0, cb), turns);
    BatchSleeps(Position(msgs, 0, cb), last, batch);
    DelaySumClosed(|turns|);
  }
}
