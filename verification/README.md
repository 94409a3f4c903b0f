# A verified model of exrdkafka

exrdkafka binds librdkafka to the BEAM. Its hard logic is a protocol between librdkafka's
callbacks, an Elixir process per consumer group, an Elixir process per partition, a C++ dispatcher
thread and asynchronous cleanups. This project models that logic in Dafny and proves what it keeps
in every run. Check it with `dafny verify dfyconfig.toml`.

| files | what they model |
|---|---|
| `Consumer`, `ConsumerProcess`, `QueuePoll` | one partition consumer: the message loops as the recursion the source has and as a process with mailbox and timers, backoff, the stop handshake, the poll loop of a partition queue |
| `GroupProtocol`, `GroupInvariant`, `GroupSteps`, `GroupTheorems`, `GroupProgress`, `GroupEffects`, `GroupMail`, `GroupRebalance`, `PartialRevoke` | rebalance, delivery and shutdown: librdkafka's callbacks, the group process and any number of consumers, interleaved freely |
| `Dispatcher`, `DispatcherTiming` | the poll dispatcher: its table, its wrapping deadline arithmetic, and how long a handle can go unpolled |
| `HandleLifetime`, `HandleSteps`, `HandleTheorems`, `HandleProgress` | lives of handles, queues, resources and reference counts, statement by statement, under every interleaving of dispatcher, NIF calls, garbage collection and asynchronous cleanup |
| `QueueManager`, `HandleStatements`, `Resources` | the queue manager and the functions that create, clean up and free consumers, producers and queues, as objects changed in place; what the steps of the lifetime machine amount to when nothing comes between them |
| `Producer`, `ProducerRuns` | the producer's overflow queue on disk, its wake-ups and drain rounds, and what `produce` promises its callers |
| `Config`, `ConfigKeys` | from client options to librdkafka settings |

A machine is a datatype of actions, a predicate `Can` that says when an action is possible and a
function `Apply` that says what the code then does; theorems are about every run. A class stands
for an object that the source changes in place, and its methods are stated with the functions that
the machines are made of: those of `Dispatcher` with `Checked`, `Served` and `IsTimeout`, which
`DispatcherTiming` runs on; those of `Producer` with `Enqueued` and `Consumed`, which `ProducerRuns`
runs on; those of `Resources` through a view that is the object's record in `HandleLifetime`, with
the functions of `HandleStatements`, where runs of that machine's steps are proved to have the same
effect; `QueueManager` with `RemoveCalls` and `ClearCalls`. `HandleLifetime` takes these call by call,
each in the world the calls before it have left (`QueueManager.Admissible`), and sets its fault flag
when one of them may not be made.

## What the environment is assumed to do

Group protocol (`EnvAllows` in `GroupProtocol`): a revoke names the whole outstanding assignment
(`RevokeIsWhole`), which is eager rebalancing; a new assignment comes only after
`rd_kafka_assign(NULL)` and brings new queues (`AssignIsFresh`); a partition restarts no later than
right after its stored offset (`RestartsNoLater`); offsets grow along a log (`LogsOk`); a queue is
detached before anything is fetched into it; a kill is immediate; starting a consumer succeeds. That
revokes have to be whole is not an idle assumption: `PartialRevoke.WhenRevokeBreaks` shows that one
revoke that is not, with the environment keeping to the rules ever after, is enough to go wrong.

Dispatcher timing: the clock never goes back, handlers take no time, due wake-ups are served at
once, and max.poll.interval.ms is at most (2^63 - 1) / 1000, far above what librdkafka accepts.

Lifetimes: `consumer_cleanup` is called once, the last reference to a consumer is dropped only
after it, and one call of `consumer_queue_cleanup` at a time is made on a queue. No other NIF is
called on a consumer once its cleanup has begun (`Use` in `HandleLifetime`): the group makes its own
calls before, and by then its consumers, who store offsets, are dead
(`GroupTheorems.UnassignComesLast`).

Producer: the result of the produce NIF is `Ok`, `QueueFull` or `Other`, as the clauses of
`lib/exrdkafka/producer.ex:177` and `lib/exrdkafka.ex:149` name it. The C side returns the integer
code (`c_src/exrdkafka_producer.cc:438`) and the table that turns -184 into that atom
(`lib/exrdkafka/error_converter.ex:23`) is not applied on this path, so that this translation
happens is an assumption.

Polling: `rd_kafka_poll(rk, 0)` serves everything that waits in a producer's main queue.

Configuration: `rd_kafka_conf_set` changes the named setting and no other.

## What was found

- `c_src/queuecallbacksdispatcher.cc:144` adds the time already elapsed to a handle's interval
  where subtracting it was evidently meant. The gap between polls is then up to 3I - 2 ms for the
  stored interval I (half of max.poll.interval.ms), that bound is reached, and a handle can go
  longer than its max.poll.interval.ms exactly when that is 6 or at least 8. Subtracting would
  keep the gap within I (`DispatcherTiming.WhenMaxPollIntervalIsKept`).
- After any revoke the group forgets every consumer (`lib/exrdkafka/consumer_group.ex:124`). Two live
  consumers of one partition can come about after a revoke if and only if it named less than the
  whole assignment (`PartialRevoke.WhenRevokeBreaks`).
- `recv_stop` (`lib/exrdkafka/consumer.ex:261`) takes any 3-tuple out of the mailbox, a stray
  GenServer call included, and the consumer then dies abnormally. Nothing is lost by it: the model
  has such messages and the theorems hold with them.
- The timeout that the dispatcher computes is exact, whatever the clock and the stamps, if and only if
  some interval is 0, or the least is at most (2^63 - 1) / 2000 + 1 and none is above 2^63
  (`Dispatcher.WhenTimeoutIsExact`). Past that it is wrong for some clock and stamps; librdkafka
  accepts no value near it.
- Of repeated options, librdkafka's take their first value and the library's own their last
  (`Config.RepeatedKeyTakesFirst`, `Config.OwnOptionTakesLast`).

## Model

| member | source | states |
|---|---|---|
| Consumer.OneByOneRefinesSpec | lib/exrdkafka/consumer.ex:217-259 | for every message list, script of replies and stop arrival, the trace is the list of attempts: each attempt calls the callback on the first message not yet done with the folded callback state (malformed replies keep it), then stores its offset or sleeps as the failures in a row ask; the run completes iff there were enough successes and is otherwise ended only by a 3-tuple |
| Consumer.OneByOneStoresSuccessfulPrefix | lib/exrdkafka/consumer.ex:217-236 | the stored offsets are those of the successful prefix in order, and whenever the callback is entered exactly the messages before its own have been stored |
| Consumer.AttemptsIsShortest | lib/exrdkafka/consumer.ex:217-259 | the attempts made are the shortest prefix of the replies with one success per message |
| Consumer.BatchRefinesSpec | lib/exrdkafka/consumer.ex:171-215 | every attempt hands over the whole batch; its last offset is stored once, right after the attempt that succeeds, and not at all when a stop request seen after a failure ends the run |
| Consumer.BatchAttemptsIsShortest | lib/exrdkafka/consumer.ex:175-215 | a batch is retried up to the first success or the first 3-tuple seen after a failure |
| Consumer.SleepAfterFailures | lib/exrdkafka/consumer.ex:274-276 | after k >= 1 failures in a row the time slept is 500(2^(k-1)-1) up to k = 4 and 3500+4000(k-4) beyond, in both modes |
| Consumer.SuccessResetsBackoff | lib/exrdkafka/consumer.ex:227-276 | n failures, a success and more failures on the next message sleep as long as the two streaks would by themselves |
| Consumer.BatchHandsOverAll | lib/exrdkafka/consumer.ex:175-198 | every callback of a batch run, retries included, is given the whole batch, and what is stored or slept comes right after one |
| Consumer.StoresAndSleepsFollowCalls | lib/exrdkafka/consumer.ex:217-259 | one by one, nothing is stored or slept but right after the callback it answers |
| Consumer.OneByOneStates | lib/exrdkafka/consumer.ex:217-259 | callbacks are called one after another with the state the replies before have left |
| Consumer.BatchStates | lib/exrdkafka/consumer.ex:175-215 | the same for batches |
| Consumer.StateAfterIsLast | lib/exrdkafka/consumer.ex:227-259 | the callback state is the one of the last well-formed reply, or the one at the start |
| QueuePoll.ConsumerQueuePoll | c_src/exrdkafka_consumer.cc:352-391 | the poll loop returns the messages of a prefix of the queue's events in order and leaves the rest in the queue; the offset it reports is that of the last message returned, and -1 iff there is none; it stops only with a full batch or an empty queue |
| QueuePoll.EventsTakenIsLeast | c_src/exrdkafka_consumer.cc:360-387 | that prefix is whole events, ends as soon as the batch is full or the queue empty, and overshoots by less than the last event's size |
| QueuePoll.PollSplitsQueue | c_src/exrdkafka_consumer.cc:360-387 | what is returned followed by what is left is what was in the queue |
| QueuePoll.LastIsLast | c_src/exrdkafka_consumer.cc:358-391 | for all events and batch sizes the offset reported is -1 iff no message is returned and otherwise that of the last one returned |
| ConsumerProcess.SchedulingInvariant | lib/exrdkafka/consumer.ex:80-132 | between handlers exactly one of poll_events and process_messages is pending, the latter iff there are messages, so unprocessed messages are never overwritten by a poll |
| ConsumerProcess.BackoffCountsFailures | lib/exrdkafka/consumer.ex:200-276 | in every run the backoff in force at a callback is 0, 500, 1000, 2000 or 4000 by the number of failures in a row since the messages were begun or the last success |
| ConsumerProcess.CallbackStateIsLast | lib/exrdkafka/consumer.ex:175-259 | in every run the process goes on with the state of the last well-formed reply, failures included |
| ConsumerProcess.CallbackIsGiven | lib/exrdkafka/consumer.ex:167-228 | the step that enters a callback hands it all the messages polled in batch mode and the first one not yet done otherwise; no other step starts a callback |
| ConsumerProcess.CallbackSettlesWhatItWasGiven | lib/exrdkafka/consumer.ex:167-259 | in every run, what the callback in progress is to settle is what the last callback started was given |
| ConsumerProcess.WhyConsumersEnd | lib/exrdkafka/consumer.ex:102-142 | a consumer ends normally iff it comes upon a stop request, and abnormally iff it crashes, a store fails or another 3-tuple is the first in its mailbox in the loop |
| ConsumerProcess.StopIsKeptOrAnswered | lib/exrdkafka/consumer.ex:102-137 | a step that leaves the consumer alive loses no stop request; one that ends it normally answers exactly one that was in its mailbox |
| ConsumerProcess.StopHandshake | lib/exrdkafka/consumer.ex:17-30 | at most one stop request is answered, one that was really sent, and after the answer the consumer never polls, calls back or stores |
| ConsumerProcess.CallbacksAfterStop | lib/exrdkafka/consumer.ex:200-222 | with a stop request in the mailbox no further callback starts in one_by_one mode and at most one in batch mode |
| ConsumerProcess.OneByOneStepsAreTheRecursion | lib/exrdkafka/consumer.ex:102-132 | from the moment process_messages is taken, the process, cut at its interruption points, does what the recursion does from backoff 0: same callbacks, same stores, same end |
| ConsumerProcess.BatchStepsAreTheRecursion | lib/exrdkafka/consumer.ex:102-132 | the same for batches, the first callback included |
| GroupSteps.StepKeepsInv | lib/exrdkafka/consumer_group.ex:88-178 | every step of the callbacks, the group and any consumer keeps the whole invariant: ids, map, queues, delivery, offsets, announced rebalances, the stop list and the handshake |
| GroupTheorems.StoredNeverPassesUnprocessed | lib/exrdkafka/consumer.ex:175-259 | in every run and both modes, no message at or below a partition's stored offset is without a callback that returned {:ok, _} |
| GroupTheorems.UnprocessedIsRedelivered | lib/exrdkafka/consumer_group.ex:88-125 | a polled message whose callback has not returned {:ok, _} is at or after the place where its partition restarts whenever it is next assigned |
| GroupTheorems.NothingIsLost | lib/exrdkafka/consumer.ex:80-132 | while a consumer lives, every unprocessed message of its partition is in its hands, in its queue or still to be fetched |
| GroupTheorems.CaughtUpHasProcessedAll | lib/exrdkafka/consumer.ex:80-132 | a consumer with nothing in hand, queued or to fetch has processed its whole partition |
| GroupTheorems.DroppedIsAboveStored | c_src/queuecallbacksdispatcher.cc:152-164 | messages drained from the main queue and dropped lie strictly above every offset stored for their partition in that assignment |
| GroupTheorems.ReplayYieldsAssignment | lib/exrdkafka/consumer_group.ex:88-125 | replaying the waiting assign and revoke messages over the map yields librdkafka's assignment, or nothing when a revoke, which names all of it, is the last of them |
| GroupTheorems.MapDuringRevoke | lib/exrdkafka/consumer_group.ex:115-125 | while a revoke is carried out the map is exactly the assignment and no rebalance message waits |
| GroupTheorems.OneLiveConsumer | lib/exrdkafka/consumer_group.ex:98-113 | at most one live consumer per partition; it serves the one queue of its partition in the current assignment, which is not forwarded back |
| GroupTheorems.UnassignComesLast | c_src/exrdkafka_consumer.cc:323-335 | while the client runs, the assignment is given up only when every consumer is dead and its queue forwarded back, in a revoke every queue there is |
| GroupTheorems.ShutdownLeavesNothing | lib/exrdkafka/consumer_group.ex:148-167 | once the client is shut down nothing is assigned and no consumer lives |
| GroupTheorems.DeadStaysDead | lib/exrdkafka/consumer_group.ex:173-178 | a consumer stopped or killed stays so; only starting one makes a live one, under a new process id |
| GroupTheorems.AnswerMeansDead | lib/exrdkafka/consumer.ex:17-30 | when the group hears the answer it waits for, the consumer it asked is dead; no earlier answer can be mistaken for it |
| GroupProgress.StopConsumersEnds | lib/exrdkafka/consumer_group.ex:173-178 | whatever else happens meanwhile, stop_consumers is through with n consumers after at most 2n steps of its own |
| GroupProgress.StopReachesEnd | lib/exrdkafka/consumer_group.ex:115-125 | wherever it stands, a run of its own steps alone, at most 2n+1 for n consumers, takes it to the end, with nothing assigned any more |
| GroupProgress.NoMessageIsPassedOver | lib/exrdkafka/consumer.ex:80-132 | if d messages lie between where a live consumer stands in its log and an unprocessed message, then once it has stored more than d offsets the callback for that message has returned {:ok, _} |
| GroupEffects.ProcessedIsWhatWasGiven | lib/exrdkafka/consumer.ex:175-231 | a message comes to count as processed iff the callback that was given it, with its whole batch or by itself, returns {:ok, _} |
| GroupEffects.StoredIsLastProcessed | lib/exrdkafka/consumer.ex:175-231 | an offset is stored iff a consumer's store succeeds, for its own partition, and it is the offset right before the consumer's new place in its log, which is further on by the batch or by one |
| GroupEffects.WhatMovesTheGroup | lib/exrdkafka/consumer_group.ex:88-165 | the group starts consumers iff it takes an assign message, for its partitions in order; stops some and goes on iff it takes a revoke message of partitions it knows, those in order; and stops all for good iff it is shut down, takes the exit of a consumer that died abnormally while it has some, or a revoke of a partition it does not know |
| GroupEffects.ConsumerIsNeverStuck | lib/exrdkafka/consumer.ex:80-132 | in every reachable state a live consumer can go on: take its next message, with what the NIF returns for a poll, have its timer fire, look at its mailbox, hear any answer of the callback, or store |
| GroupEffects.ConsumersRunAsProcesses | lib/exrdkafka/consumer.ex:80-259 | every consumer the group ever started is at the end of a run of the consumer process, so what is proved of those runs holds of it |
| GroupMail.StopRequestIsThere | lib/exrdkafka/consumer.ex:17-30 | while the group waits, the consumer it asked has the stop request in its mailbox, or has ended and said so, with the answer waited for iff it ended normally |
| GroupMail.MailIsKeptAndTrue | lib/exrdkafka/consumer_group.ex:88-146 | the group's mailbox loses a message only as it is taken or heard or the group goes down; each assignment and revoke announced while the client runs is told once, each death is told with its kind, and nothing else comes in |
| GroupRebalance.AssignStartsConsumers | lib/exrdkafka/consumer_group.ex:88-113 | after an assign message is taken, one start after another leads back to the main loop with a new live consumer for each partition, on its own queue and in the map, and everybody else left alone |
| GroupRebalance.RevokeCompletes | lib/exrdkafka/consumer_group.ex:88-178 | from wherever the group stands with a revoke announced, and whatever else is in its mailbox, steps of its own lead to where nothing is assigned |
| GroupRebalance.NoQueuedMessageVanishes | lib/exrdkafka/consumer.ex:80-100 | what a queue holds stays in it until the assignment is given up, but for what its consumer is handed, which it then holds, and what is drained once forwarded, and both are recorded |
| PartialRevoke.WhenRevokeBreaks | lib/exrdkafka/consumer_group.ex:115-125 | from every reachable state between handlers with no mail waiting, and for every list of assigned partitions: after its revoke two live consumers of one partition can come about iff the list is not the whole assignment |
| PartialRevoke.LeftOutMeansTwo | lib/exrdkafka/consumer_group.ex:115-125 | there, for every live consumer whose partition the revoke leaves out, a second live one can be reached |
| PartialRevoke.QuietIsComplete | lib/exrdkafka/consumer_group.ex:88-143 | between handlers with no mail waiting the map is the assignment and every consumer in it is alive |
| PartialRevoke.TwoConsumersForOnePartition | lib/exrdkafka/consumer_group.ex:115-125 | an instance, for any two partitions, logs and callbacks |
| Dispatcher.QueueCallbacksDispatcher.CheckMaxPollIntervalMs | c_src/queuecallbacksdispatcher.cc:129-148 | in whatever order the table is visited, every due item is polled once and stamped, no other is touched, the main queues of due handles are served, and the result is 1000 times the least delay in uint64 arithmetic cast to int64 |
| Dispatcher.QueueCallbacksDispatcher.Turn | c_src/queuecallbacksdispatcher.cc:97-125 | one turn of the loop polls handles of the table only: first the event's if it is there, and of the others exactly those that are due; a handle polled is stamped now and its main queue is empty afterwards, a consumer's while the dispatcher runs; all other stamps and queues are unchanged; the wait is what the check computes |
| Dispatcher.QueueCallbacksDispatcher.Watch | c_src/queuecallbacksdispatcher.cc:37-57 | the handle is in the table with half its max.poll.interval.ms, stamped now, and the loop is woken |
| Dispatcher.QueueCallbacksDispatcher.Remove | c_src/queuecallbacksdispatcher.cc:59-82 | the handle is out of the table, found or not; the loop is woken if it was there |
| Dispatcher.QueueCallbacksDispatcher.DoPoll | c_src/queuecallbacksdispatcher.cc:150-171 | a running dispatcher drains all that a consumer's main queue holds; a producer's is served whole, running or not; no other queue is touched |
| Dispatcher.CheckedIsFresh | c_src/queuecallbacksdispatcher.cc:136-145 | after a check every item has elapsed 0 if it was due and less than its interval if not, whatever the clock did |
| Dispatcher.TimeoutIsMinusOne | c_src/queuecallbacksdispatcher.cc:129-148 | the check returns -1 iff the table is empty, overflow or not |
| Dispatcher.TimeoutIsExact | c_src/queuecallbacksdispatcher.cc:144-147 | for all intervals up to (2^63-1)/2000, and wherever Fits holds, sum, product and cast do not overflow: the result is 1000 times the least interval plus post-check elapsed time |
| Dispatcher.WhenTimeoutIsExact | c_src/queuecallbacksdispatcher.cc:129-148 | for every table, the result is exact for every clock and all stamps iff some interval is 0, or the least is at most (2^63-1)/2000+1 and none is above 2^63 |
| Dispatcher.GreatestExactLimit | c_src/queuecallbacksdispatcher.cc:129-148 | a limit on intervals keeps the result exact for every table within it iff the limit is at most (2^63-1)/2000+1 |
| DispatcherTiming.TurnIsTheDispatchers | c_src/queuecallbacksdispatcher.cc:97-125 | in the timed machine the wait after a turn is the timeout the dispatcher computes |
| DispatcherTiming.PollGapIsBounded | c_src/queuecallbacksdispatcher.cc:89-148 | under any mix of signals, watches and removes a watched handle is never more than 3I-2 ms past its last poll; with subtraction instead, never more than I |
| DispatcherTiming.WaitAfterOwnPoll | c_src/queuecallbacksdispatcher.cc:89-148 | a wait entered just after a handle's own poll lasts at most its interval |
| DispatcherTiming.BoundIsTight | c_src/queuecallbacksdispatcher.cc:89-148 | the bound is reached, for every max.poll.interval.ms and either rule |
| DispatcherTiming.WhenMaxPollIntervalIsKept | c_src/queuecallbacksdispatcher.cc:48 | a handle can go longer than its max.poll.interval.ms iff that is 6 or at least 8; with subtraction it never goes longer than half of it |
| QueueManager.QueueManager.Add | c_src/queuemanager.cc:11-19 | the queue is detached and in the set |
| QueueManager.QueueManager.Remove | c_src/queuemanager.cc:21-36 | for a queue in the set: a reference to the main queue, the queue forwarded to it, the reference given back, the queue destroyed, in this order, and it is taken out; for any other nothing at all is asked of librdkafka |
| QueueManager.QueueManager.ClearAll | c_src/queuemanager.cc:38-52 | every queue of the set is forwarded back once, in some order, and the set is empty |
| QueueManager.WhatIsDestroyed | c_src/queuemanager.cc:21-52 | remove destroys the queue iff the set has it; clear_all destroys none |
| QueueManager.RemoveIsAdmissible | c_src/queuemanager.cc:21-36 | every call remove makes may be made in the world the calls before it have left, iff the handle is open and the queue alive and its owner's; then the queue is destroyed and no reference to the main queue is left |
| QueueManager.ClearIsAdmissible | c_src/queuemanager.cc:38-52 | the same for clear_all in any order, iff it has nothing to clear or the handle is open and every queue alive; then each is forwarded, none destroyed and no reference left |
| QueueManager.RemoveForwardsOnce | c_src/queuemanager.cc:29-35 | remove forwards the queue exactly once, between getting and giving back the reference to the main queue, and destroys it last of all |
| QueueManager.ClearForwardsOnce | c_src/queuemanager.cc:44-49 | clear_all forwards every queue of the set exactly once, between getting and giving back the reference, and destroys none |
| QueueManager.RemoveTwice | c_src/queuemanager.cc:21-36 | removing a queue that was removed or cleared before, or NULL, asks nothing of librdkafka |
| HandleStatements.NewQueueInOneGo | c_src/exrdkafka_consumer.cc:37-49 | enif_new_queue without interruption is the four steps of the lifetime machine: one more reference, the queue in the set, a resource that holds it |
| HandleStatements.ConsumerCleanupInOneGo | c_src/exrdkafka_consumer.cc:427-442 | enif_consumer_cleanup is LowerFlag, Unwatch, Launch: flag down, handle out of the table, cleanup under way |
| HandleStatements.CleanupConsumerInOneGo | c_src/exrdkafka_consumer.cc:51-68 | cleanup_consumer is ClearAll, CloseConsumer, DestroyConsumer: set empty, handle destroyed and forgotten |
| HandleStatements.QueueCleanupInOneGo | c_src/exrdkafka_consumer.cc:306-321 | enif_consumer_queue_cleanup is CleanupRemove, CleanupForget: the queue out of the set, destroyed if it was in it, and forgotten |
| HandleStatements.QueueFreeInOneGo | c_src/exrdkafka_consumer.cc:194-204 | enif_queue_free is FreeRemove, FreeRelease: the same for a queue still held, and one reference less |
| HandleStatements.ProducerCleanupInOneGo | c_src/exrdkafka_producer.cc:220-234 | enif_producer_cleanup is Unwatch, Launch |
| HandleStatements.ProducerFreeInOneGo | c_src/exrdkafka_producer.cc:93-116 | enif_producer_free without cleanup is Unwatch, Flush, FreeClient: out of the table, flushed, destroyed |
| Resources.EnifConsumer.NewQueue | c_src/exrdkafka_consumer.cc:37-49 | the view changes as HandleStatements.NewQueueInOneGo says, for whatever new handle librdkafka returns |
| Resources.EnifConsumer.AssignList | c_src/exrdkafka_consumer.cc:70-102 | one item per partition in order, each with a new detached queue; the set and the reference count grow by exactly these |
| Resources.EnifConsumer.OnAssign | c_src/exrdkafka_consumer.cc:104-119 | while the client runs: assign, one detached queue each, then the message; after cleanup has begun nothing but giving up the assignment |
| Resources.EnifConsumer.OnRevoke | c_src/exrdkafka_consumer.cc:121-131 | while the client runs only a message naming every partition in order; after that only giving up the assignment |
| Resources.EnifConsumer.CleanupConsumer | c_src/exrdkafka_consumer.cc:51-68 | the view changes as CleanupConsumerInOneGo says; every queue is forwarded back once and none destroyed, then close, then destroy |
| Resources.EnifConsumer.ConsumerCleanup | c_src/exrdkafka_consumer.cc:427-442 | the view, table and events change as ConsumerCleanupInOneGo says |
| Resources.EnifConsumer.ConsumerFree | c_src/exrdkafka_consumer.cc:206-227 | on every path, cleanup called or not and its task waited for, the handle is closed and destroyed once over the life of the client and the queue manager's assertion holds |
| Resources.QueueCleanup | c_src/exrdkafka_consumer.cc:306-321 | both views change as QueueCleanupInOneGo says; librdkafka is asked what remove asks |
| Resources.QueueFree | c_src/exrdkafka_consumer.cc:194-204 | the consumer's view changes as QueueFreeInOneGo says |
| Resources.CleanupThenFree | c_src/exrdkafka_consumer.cc:194-204 | a queue cleaned up and then freed is destroyed once if it was in the set and not at all otherwise |
| Resources.EnifProducer.ProducerCleanup | c_src/exrdkafka_producer.cc:220-234 | the view and table change as ProducerCleanupInOneGo says |
| Resources.EnifProducer.ProducerFree | c_src/exrdkafka_producer.cc:93-116 | on every path, cleanup called or not and its task waited for, the producer has been flushed once and then destroyed once, with the handle out of the table |
| HandleSteps.StepKeepsInv | c_src/exrdkafka_consumer.cc:194-227 | every step of dispatcher, NIFs, destructors and cleanups, cut between the statements that other threads can come between, keeps the invariant, and none sets the fault flag |
| HandleSteps.CloseCallbackKeeps | c_src/exrdkafka_consumer.cc:104-110 | a rebalance callback from within consumer_close finds the flag down and adds no queue |
| HandleTheorems.NothingGoesWrong | c_src/exrdkafka_consumer.cc:37-68 | no run uses rk_ after rd_kafka_destroy, makes a call of a queue manager out of turn, destroys a queue twice or another resource's, adds a queue twice, touches freed memory, revives a client, or deletes a queue manager with a non-empty set |
| HandleTheorems.WatchedIsLive | c_src/queuecallbacksdispatcher.cc:107-120 | every handle in the table is alive; in a callback the client is still watched and its handle alive |
| HandleTheorems.RemovedForGood | c_src/queuecallbacksdispatcher.cc:59-127 | once remove has returned for a client the dispatcher is not in a poll or callback for it and never is again, whatever events are queued and even if the address is used again |
| HandleTheorems.NoQueueAfterClearAll | c_src/exrdkafka_consumer.cc:427-442 | after clear_all the client's set stays empty for good |
| HandleTheorems.QueueHeldOnce | c_src/exrdkafka_consumer.cc:306-321 | two resources hold the same non-null queue only while one of them, having destroyed it, is about to forget it |
| HandleTheorems.SetMemberIsOwned | c_src/exrdkafka_consumer.cc:37-49 | a queue in the set is alive, in one set only, owned by one resource or the dispatcher making it, and keeps its consumer's memory and handle |
| HandleTheorems.EmptyWhenFreed | c_src/exrdkafka_consumer.cc:206-227 | when a consumer's memory goes no queue resource of it is left and the set is empty |
| HandleTheorems.DestroyedByItsOwner | c_src/exrdkafka_consumer.cc:194-204 | a queue handle is destroyed only on behalf of the resource it was made for, which has not destroyed it before |
| HandleTheorems.NothingIsForgottenBeforeClearAll | c_src/queuemanager.cc:21-52 | until clear_all has run for its client, cleaning up or freeing a resource that holds a queue does destroy that queue, which is then in no set |
| HandleProgress.EveryClientCanBeFreed | c_src/exrdkafka_consumer.cc:194-227 | from every reachable state, wherever its statements were cut off, there is a way on to the end of any client: no resource of it is left, its handle destroyed, its set empty, its memory freed |
| HandleProgress.EventIsServed | c_src/queuecallbacksdispatcher.cc:97-125 | the dispatcher polls the handle it is woken for, or that is due, iff the handle is still in the table, and serves the client it was made for |
| HandleProgress.AssignmentNeedsRunning | c_src/exrdkafka_consumer.cc:104-119 | an assignment callback goes on to hand out queues iff the client is running and otherwise changes nothing |
| HandleProgress.QueueCanBeHandedOut | c_src/exrdkafka_consumer.cc:37-102 | in the callback of a running consumer a queue can be handed out: it is then in the set, held by one new resource, with one reference more |
| HandleProgress.AQueueIsHandedOut | c_src/exrdkafka_consumer.cc:37-102 | for every handle and queue some run reaches a set that holds the queue |
| Producer.Process.QueueEvent | lib/exrdkafka/producer.ex:56-81 | with a local disk queue the message is appended and a wake-up scheduled iff none is pending; otherwise the strategy's name is the reply and nothing changes |
| Producer.Process.DrainQueue | lib/exrdkafka/producer.ex:150-187 | the drain loop disposes of the messages up to the first queue-full answer, the end of the queue or its limit, in order, and leaves the rest |
| Producer.Process.ConsumeQueue | lib/exrdkafka/producer.ex:89-98 | the handler's new state: queue, librdkafka, flag and pending wake-ups |
| Producer.DrainCount | lib/exrdkafka/producer.ex:150-187 | how many messages a round disposes of: none of those answers is queue-full, and the next one is, or the queue or the limit is exhausted |
| ProducerRuns.NoLostWakeUp | lib/exrdkafka/producer.ex:39-98 | under local_disk_queue pqueue_sch is true iff exactly one consume_queue is pending, and a non-empty queue implies it, what was on disk before included |
| ProducerRuns.QueueConserves | lib/exrdkafka/producer.ex:56-187 | initial contents plus enqueued messages are processed ++ queue in order; librdkafka accepted the processed ones less those skipped for an error; queue-full disposes of none |
| ProducerRuns.DrainedInOrder | lib/exrdkafka/producer.ex:150-199 | what librdkafka took from the queue it took in the queue's order, each message as enqueued, those stored without a timestamp with 0 |
| ProducerRuns.EveryMessageIsAccountedFor | lib/exrdkafka.ex:132-191 | over calls, blocked callers, drains and restarts: every call has returned :ok, returned an error or is blocked; the messages on disk at first, those told :ok, and those among the errors that were enqueued although the call to the process failed are, with multiplicity, those accepted, skipped for an error, still queued or dropped |
| ProducerRuns.StrategyDecides | lib/exrdkafka.ex:149-179 | over every run only local_disk_queue ever queues, only drop_records drops, only block_calling_process blocks; the calls told :ok, with those queued against an error, are those accepted at once, queued or dropped, one of the three each |
| ProducerRuns.AnswerDecides | lib/exrdkafka.ex:132-191 | an accepted message is told :ok; one refused for any reason but a full queue gets the error, and an unknown client's call an error without librdkafka being asked; in none of these cases is anything queued, dropped or kept waiting |
| ProducerRuns.FullLeavesItToStrategy | lib/exrdkafka.ex:149-179 | a full queue: local_disk_queue appends the message, with one wake-up pending, and tells :ok, drop_records drops it and tells :ok, block_calling_process keeps the caller waiting; a failed call to the process gets an error and only local_disk_queue can have queued the message |
| ProducerRuns.BlockedCallerIsAnswered | lib/exrdkafka.ex:242-254 | each retry of a blocked caller asks librdkafka once more: accepted it is told :ok, refused otherwise it gets the error, full it goes on waiting; nothing is queued or dropped for it |
| ProducerRuns.OnlyFullReachesStrategy | lib/exrdkafka.ex:137-191 | no other step queues, drops or blocks anything, and rounds of draining and restarts answer nobody |
| ProducerRuns.RoundIsBounded | lib/exrdkafka/producer.ex:150-187 | a round removes at most 5000 messages from the front, :completed implies an empty queue, and a message there was no room for stays at the head |
| ProducerRuns.RoundsToCompletion | lib/exrdkafka/producer.ex:89-98 | with room and no new messages a queue of length L is completed in round floor(L/5000)+1 and no earlier |
| Config.FilterFailsOnFirstBad | lib/exrdkafka/config.ex:129-186 | conversion fails iff some option is bad, with what is wrong about the first such |
| Config.AcceptedExactly | lib/exrdkafka/config.ex:129-205 | options are accepted iff each is a pair that is a callback of two arguments or an atom, one of the three strategies, or a known setting with a value that can be written as text; otherwise the first that is not is complained about, by value, by name and value, or as a clause error |
| Config.ParseConfig | c_src/exrdkafka_config.cc:26-55 | the settings are applied in order up to the first malformed or refused one, which is what is reported |
| Config.ParseKafkaConfig | c_src/exrdkafka_config.cc:102-108 | the defaults come first; a refused default is reported as such |
| Config.OffsetsAreStoredByHandOnly | c_src/exrdkafka_config.cc:57-69 | for every accepted option list the settings end with enable.auto.offset.store = false, enable.auto.commit = true, enable.partition.eof = false |
| Config.FinalIsFirst | lib/exrdkafka/config.ex:150-158 | each setting has the value of the first option that becomes it, or the default |
| Config.TopicsAreCreatedUnlessSet | c_src/exrdkafka_config.cc:57-69 | allow.auto.create.topics ends as true unless an option allow_auto_create_topics is given |
| Config.RepeatedKeyTakesFirst | lib/exrdkafka/config.ex:150-183 | of options with the same key the first counts, and no other key can take its place; the setting is the key with dots for underscores, and its value the text as it is, the name of the atom or the digits of the number |
| Config.DottedIsInjective | lib/exrdkafka/config.ex:176-183 | names without dots stay different when underscores become dots |
| Config.OwnOptionTakesLast | lib/exrdkafka/utils.ex:24-31 | for the library's own options lookup finds the last one given, and nothing iff none was |
| ConfigKeys.KafkaKeysArePlain | lib/exrdkafka/config.ex:8-105 | no option passed on has a dot in its name, and each differs in a letter from every reserved setting of its length |

## Left out

- ConsumerProcess.SchedulingInvariant: says what is scheduled, not for when; the delays of the timers (0, 1000 and poll_idle_ms) are not modelled, and a timer may fire at any time.
- Config.RepeatedKeyTakesFirst: a number comes with its digits; how Erlang writes them is not modelled.
- Resources.EnifConsumer.ConsumerFree: the task behind closed_future runs at the latest when it is waited for; nothing comes between the statements of a function in this module, which is what the lifetime machine is for.
- GroupTheorems.UnprocessedIsRedelivered: places the message at or after the restart; that a consumer there comes to it before it goes past it is `GroupProgress.NoMessageIsPassedOver`.
- Dispatcher.QueueCallbacksDispatcher.DoPoll: messages that arrive during the drain, and the flag being cleared meanwhile by another thread. In the group machine fetching and draining interleave message by message.
- librdkafka, the event queue, the queue on disk, OTP supervision and the JSON parser: they are interfaces with the assumed behaviour above.
- Cooperative rebalancing, a NULL or partial list in the rebalance-error branch, and messages fetched into the main queue before a queue is detached: only the run in `PartialRevoke` is about the first.
- The group machine takes the asynchronous end of `consumer_cleanup` in one step with the last stop; the lifetime machine has it statement by statement.
- Lists of a revoke with partitions the group does not know: get_pid_queue_pairs then yields nil and the handler crashes in the middle; the model lets it crash at once. With whole revokes it cannot happen.
- Failure of a consumer's `init`: starting one is assumed to succeed.
- Garbage collection of a consumer reference that `consumer_cleanup` was never called for.
- Queues forgotten by clear_all (`c_src/queuemanager.cc:44-51`) are never destroyed, so a queue is shown to be destroyed at most once, not exactly once.
- Polling a partition queue is not an action of the lifetime machine: that consumers poll only queues that have not been cleaned up is `GroupTheorems.OneLiveConsumer`.
- Error paths of `consumer_new` and `producer_new` before the handle is watched.
- A producer process that dies between an accepted produce and the dequeue, after which the message would be sent again: restarts are modelled between handlers.
- Ordering between direct calls of produce and messages waiting in the local queue, which later calls may overtake; the queue itself is FIFO.
- `HandleTheorems.RemovedForGood` is about polls and callbacks of the dispatcher thread; librdkafka's own threads are not modelled.
- Conversion of headers, message and term marshalling, metadata, logging and statistics; the producer's statistics key is absent from its initial state and nothing is claimed about it.
- Utils.append_props, which has no clause for an empty list and does not compute the merge its shape suggests.
- Topic options, TopicManager, CacheClient, ClientManager, produce_batch and produce_sync: easy members.
- Aliases among librdkafka's settings.
