# Nexus runtime: verification model

A Dafny model of the runtime that queues, judges and settles submissions, and proofs of
what it keeps over every run. `dafny verify dfyconfig.toml` checks the whole project.

| files | what they model |
|---|---|
| `TaskQueue`, `InMemoryQueue`, `Rotation` | the in-memory route-aware task queue: every operation as a function on its four structures, and the class that updates those structures in place, proved equal to the functions |
| `QueueAccounting`, `QueueOrdering` | conservation, termination, first-in-first-out, bounded waiting and alternation over every run of atomic operations |
| `TaskPlaces`, `TaskLife` | where one task is, how every operation moves it and what it carries along, when it may be handed out and how often |
| `LockSections`, `StaleRoutes` | the same queue with its locks taken apart: an operation is a thread that may be interrupted between any two lock sections; when a route is left listed without its bucket |
| `WorkerLoop`, `WorkerInvariant`, `Lifecycle`, `OverlappingGroups` | worker groups, `schedule`, snapshots and events; when snapshots agree with the queue |
| `WorkerAnswers` | a log of what workers were told: events, snapshots and the time of retries follow from it |
| `RedisStreams` | the Redis Streams adapter as single commands of clients that may crash between any two of them |
| `RedisHistory`, `RedisProgress` | a history of where every copy came from, from which attempts, delays and order follow; what each operation achieves, and that no live task is stuck |
| `RabbitMq` | listing and replaying dead letters over RabbitMQ on a channel that may fail at any command |
| `RouteCatalog`, `CatalogSections`, `Topology` | the rotation order of the broker adapters, as a class and with its lock sections interleaved, and the names derived from routes |
| `Judge`, `Sorting`, `Text` | the output validator, sorting, and tokenising, trimming and splitting of text |
| `JudgeModes` | what each mode of the validator means, token by token |
| `Decimal`, `Execution`, `Projection` | validating, laying out and executing a judging task, and what the submission shows afterwards |
| `Verdicts` | what an outcome and a submission mean, in terms of what the processes did |
| `WorkersFromEnv` | the parser of the worker-group environment variable |
| `EnvErrors` | which text of that variable is refused, and with which error |
| `FailureWindow` | the lazily pruned five-minute window of broker failures |
| `Prelude` | options, results, 32-bit numbers, sums over sequences and maps |

How things are modelled:

- Time is a parameter `now` of every operation that reads the clock. Operations read it once.
- Task ids, routes and texts are strings of characters. `u32` is a bounded type; sums of scores wrap modulo 2^32.
- Runs are lists of actions from the initial state. What the environment decides (process
  results, which command fails, which client crashes) is an argument of the action, so a
  lemma about all lists of actions speaks about all environments.
- Numbers compared by the judge are reals. Lower-casing and reading a number are arbitrary functions.
- In `RabbitMq` the channel survives an arbitrary number of commands, and the failing
  command may or may not still take effect.
- In `Execution` the results and outputs of the processes are arbitrary inputs; files are
  a map from (directory, file name) to text. A file that is not readable as text makes the
  execution fail with an internal error, as in the code.

Where the code does not do what one would expect, the model follows the code, a lemma gives
concrete inputs or a concrete run, and a theorem beside it says exactly when it happens:

- Delivery ids are derived from task ids, so two live tasks with one id overwrite each
  other's lease (`DuplicateIdLosesTask`); a reserve keeps every task exactly when no lease is
  held under the id it issues (`ReserveConservesIff`).
- A route can stay listed after its bucket is gone, and then ends every later scan that meets
  it (`StaleRouteHidesDueTask`, `ScanSucceedsIff`). Its extra listings are exactly the removals
  that found it unlisted (`ListingsCountMisses`), they are for good (`StaleForGood`), and they
  take two reserves in flight over one route (`ExclusiveReservesLeaveNothingStale`).
- Worker groups that share a route can leave a finished task with a Retrying snapshot for
  good (`LateReportOverwrites`); snapshots agree if and only if no two groups share a route
  (`AgreementIffDisjoint`).
- A crash between the two commands of a Redis promotion can lose the task
  (`PromotionCrashLoses`); it can if and only if the task was not acknowledged and had no other
  live copy that nobody was about to remove (`PromotionCrashLosesIff`).
- Concurrent first uses can list a route twice in the catalog (`OvertakingRun`); they do if and
  only if a registration lists the route between the two sections of its insertion
  (`ListedTwiceIff`, `QuietMeansListed`).
- Dots and replaced characters make names of different routes coincide (`DottedLaneClashes`,
  `DottedQueueClashes`, `ReplacedCharactersClash`); `NamesCoincide` says exactly when, for all
  queues, lanes and kinds.
- The score can exceed the maximal score when the 32-bit sum wraps (`ScoreCanExceedMax`,
  `ScoreAtMostMaxIff`); a debug build panics instead. The maximal score counts only the
  cases that ran.
- Comparing numbers within a tolerance is transitive if and only if the tolerance is not
  positive (`MatchingTransitiveIff`).
- A clock that steps back hides failures that are in the window again, and leaves failures
  counted that are too old (`ClockStepsBack`); `SnapshotsExactIff` says for which clock readings
  every snapshot is exact.

## Model

| member | source | states |
|---|---|---|
| InMemoryQueue.InMemoryRuntimeTaskQueue.Enqueue | crates/nexus-runtime/src/executor.rs:1159-1170 | the four structures change exactly as the operation on values says, from any state |
| InMemoryQueue.InMemoryRuntimeTaskQueue.Reserve | crates/nexus-runtime/src/executor.rs:1172-1222 | the scan over a snapshot of the route order, with its early end at a missing bucket, its pop, rotation or removal and its lease, is the operation on values, from any state |
| InMemoryQueue.InMemoryRuntimeTaskQueue.Ack | crates/nexus-runtime/src/executor.rs:1224-1239 | only the lease goes; an unknown delivery id is not an error and changes nothing |
| InMemoryQueue.InMemoryRuntimeTaskQueue.Retry | crates/nexus-runtime/src/executor.rs:1241-1300 | a leased task is put back with one attempt more, its delay and its error, or becomes a dead letter at its limit; an unknown id is an error and changes nothing; `TaskLife` says when and with what it is handed out again |
| InMemoryQueue.InMemoryRuntimeTaskQueue.Reject | crates/nexus-runtime/src/executor.rs:1302-1334 | a leased task becomes a dead letter at once |
| InMemoryQueue.InMemoryRuntimeTaskQueue.ReplayDeadLetter | crates/nexus-runtime/src/executor.rs:1390-1421 | the first dead letter with the id leaves the list and waits again at attempt 1; an unknown id is an error |
| InMemoryQueue.InMemoryRuntimeTaskQueue.EnqueueInternal | crates/nexus-runtime/src/executor.rs:1424-1439 | the item goes to the back of its bucket, and its route to the back of the order exactly when the bucket was empty |
| InMemoryQueue.InMemoryRuntimeTaskQueue.RotateRoute | crates/nexus-runtime/src/executor.rs:1441-1448 | the route's first occurrence moves to the back |
| InMemoryQueue.InMemoryRuntimeTaskQueue.RemoveRoute | crates/nexus-runtime/src/executor.rs:1450-1456 | the route's first occurrence goes |
| InMemoryQueue.InMemoryRuntimeTaskQueue.FilteredRoutes | crates/nexus-runtime/src/executor.rs:1458-1476 | the listed routes that are bound, in order; with no bindings all of them |
| TaskQueue.ApplyKeepsValid | crates/nexus-runtime/src/executor.rs:1157-1477 | every operation keeps: buckets non-empty and sorted by route, the order a duplicate-free listing of exactly the bucket keys, leases and dead letters filed under their task's delivery id, attempts within 1..max(1, max_attempts) |
| TaskQueue.RunKeepsValid | crates/nexus-runtime/src/executor.rs:1157-1477 | the same over every run |
| TaskQueue.ReserveNoneIffNothingDue | crates/nexus-runtime/src/executor.rs:1172-1194 | reserve returns nothing exactly when no bound route has a due front |
| TaskQueue.ReserveServesFirstDue | crates/nexus-runtime/src/executor.rs:1172-1222 | the route served comes first in the order among the bound due ones; its front is handed out and was available |
| TaskLife.LifeOfATask | crates/nexus-runtime/src/executor.rs:1157-1477 | after any run with distinct ids, whatever operation comes next moves a task exactly as its place calls for: task, attempt, time, error and lease are given field by field for each turn, and an operation about other tasks leaves it untouched |
| TaskLife.AnswersTell | crates/nexus-runtime/src/executor.rs:1241-1421 | what retry and replay answer tells where the task is; an unknown delivery id is an error |
| TaskLife.RetryIsNotEarly | crates/nexus-runtime/src/executor.rs:1293-1295 | over every run, a retried task is next handed out with one attempt more and the error it failed with, and not before the time of the retry plus its delay |
| TaskLife.RetryDueIff | crates/nexus-runtime/src/executor.rs:1172-1295 | with nothing else to hand out, a retried task is handed out if and only if its delay has passed |
| TaskLife.FullAttempts | crates/nexus-runtime/src/executor.rs:1241-1421 | from an enqueue or a replay on, unless rejected or replayed again, a task is handed out at most max(1, max_attempts) times, its attempt counts how often, and it is buried exactly after the last |
| QueueAccounting.Conservation | crates/nexus-runtime/src/executor.rs:1157-1477 | after any run with distinct ids each enqueued task, payload included, is in exactly one of queued, leased, dead-lettered, acknowledged, and no other task is anywhere |
| QueueAccounting.ReserveConservesIff | crates/nexus-runtime/src/executor.rs:1195-1220 | a reserve keeps every task if and only if no lease is held under the id it issues |
| QueueAccounting.DuplicateIdLosesTask | crates/nexus-runtime/src/executor.rs:1195-1220 | two live tasks with one id: after both reserves only the second one exists anywhere |
| QueueAccounting.WorkFalls | crates/nexus-runtime/src/executor.rs:1172-1334 | each successful reserve, ack, retry or reject lowers a weight of the attempts left |
| QueueAccounting.RunsStop | crates/nexus-runtime/src/executor.rs:1159-1334 | from freshly enqueued tasks at most 2 times the sum of allowed attempts such operations can follow |
| QueueOrdering.Fifo | crates/nexus-runtime/src/executor.rs:1172-1222 | for each route, what was reserved followed by what waits is what waited followed by what was pushed, in order, over every run with retries and replays |
| QueueOrdering.BoundedWaiting | crates/nexus-runtime/src/executor.rs:1172-1194 | a listed route that is not served was bound and due at no more reserves than routes were ahead of it, whatever the other reserves are bound to |
| QueueOrdering.TurnsTaken | crates/nexus-runtime/src/executor.rs:1441-1476 | two routes bound and due at every reserve take strict turns: their service counts differ by who is ahead in the order |
| QueueOrdering.Alternation | crates/nexus-runtime/src/executor.rs:1441-1476 | in any window of such a run the counts differ by at most one |
| LockSections.EveryInterleaving | crates/nexus-runtime/src/executor.rs:1172-1300 | under every interleaving of lock sections: no stored bucket is empty; listings of a route plus pending listings are at least its bucket plus pending removals; each task is in exactly one place, the hands of running operations included |
| LockSections.QuietMeansReachable | crates/nexus-runtime/src/executor.rs:1390-1456 | once no operation is part-way every bucket's route is listed and nothing is in hand |
| LockSections.UninterruptedIsAtomic | crates/nexus-runtime/src/executor.rs:1157-1477 | the lock sections of each operation, run without interruption, make up the atomic operation |
| LockSections.ScanSucceedsIff | crates/nexus-runtime/src/executor.rs:1176-1194 | a scan finds work if and only if some route of its snapshot is due and no route before it has lost its bucket |
| LockSections.StaleRouteHidesDueTask | crates/nexus-runtime/src/executor.rs:1172-1222 | a concrete run after which no operation is part-way, a task is due, and an unbound reserve finds nothing |
| StaleRoutes.StepSurplus | crates/nexus-runtime/src/executor.rs:1441-1456 | under every interleaving, by how much a route's listings exceed its bucket and the work still to come rises exactly when a removal finds the route unlisted, and never changes otherwise |
| StaleRoutes.ListingsCountMisses | crates/nexus-runtime/src/executor.rs:1172-1222 | once no operation is part-way, a route is listed once for its bucket, if it has one, and once more for each removal that missed |
| StaleRoutes.StaleForGood | crates/nexus-runtime/src/executor.rs:1172-1222 | after one miss the route is listed beyond its bucket at every later rest |
| StaleRoutes.ExclusiveReservesLeaveNothingStale | crates/nexus-runtime/src/executor.rs:1172-1222 | if no two reserves in flight may remove the same route, the order is a duplicate-free listing of the buckets at rest, and a reserve finds nothing exactly when nothing bound is due |
| WorkerInvariant.ReachableInv | crates/nexus-runtime/src/executor.rs:1568-1777 | the invariant tying workers, leases, buckets, dead letters, snapshots and events holds over every run of disjoint groups |
| Lifecycle.LifecycleAgreement | crates/nexus-runtime/src/executor.rs:1783-1830 | at a loop head of the group bound to its route a scheduled task's snapshot is Queued or Retrying iff it waits, Completed or Failed iff acknowledged, DeadLettered iff a dead letter; before `schedule` enqueues it, Queued and nowhere |
| Lifecycle.UnboundTaskWaits | crates/nexus-runtime/src/executor.rs:1568-1777 | a scheduled task on a route that no group is bound to waits for ever with a Queued snapshot |
| Lifecycle.TraceGrammar | crates/nexus-runtime/src/executor.rs:1588-1771 | the events of each task follow the grammar of attempts and stages; which stage and which outcome they name is `WorkerAnswers.EventsAreAnswers` |
| Lifecycle.GrammarMeans | crates/nexus-runtime/src/executor.rs:2154-2210 | attempts are numbered one more after each Retrying, only attempts below the limit are retried, only the last is dead-lettered, settling events come last, at most four events an attempt |
| WorkerAnswers.EventsAreAnswers | crates/nexus-runtime/src/executor.rs:1588-1771 | over every run of any groups, Prepared, Compiling, Running, Completed and Failed are announced for an attempt if and only if that is what preparing, the artifacts and the execution answered; a failure is reported if and only if one of them failed |
| WorkerAnswers.OutcomeIsShown | crates/nexus-runtime/src/executor.rs:1695-1732 | a task's snapshot is Completed if and only if an execution of it returned Completed, Failed if and only if one returned Failed, and that was its last attempt and its last event |
| WorkerAnswers.RetriesWait | crates/nexus-runtime/src/executor.rs:2164-2171 | no worker begins a further attempt before the task's own retry delay has passed since the attempt before was given up |
| OverlappingGroups.LateReportOverwrites | crates/nexus-runtime/src/executor.rs:2154-2210 | for any two groups bound to one route a run ends with every group idle, the task acknowledged and its snapshot Retrying |
| OverlappingGroups.AgreementIffDisjoint | crates/nexus-runtime/src/executor.rs:1568-1777 | snapshots agree with the queue over every run if and only if no two groups share a route |
| RedisStreams.AtLeastOnce | crates/nexus-runtime/src/broker/redis.rs:253-367 | over every run of commands, crashes and reclaims in which each crashed promotion finds the task acknowledged or with another live copy nobody is about to remove, a published task is acknowledged or still has a live copy; every copy carries a published task at an attempt within its limit |
| RedisStreams.StepKeepsSafe | crates/nexus-runtime/src/broker/redis.rs:639-807 | every command, reclaim and crash other than a crashed promotion keeps a task acknowledged or with a copy that nobody is about to remove |
| RedisStreams.CrashKeepsSafeIff | crates/nexus-runtime/src/broker/redis.rs:144-161 | a crashed promotion keeps that if and only if the task is acknowledged or has another such copy |
| RedisStreams.CanBeLostIff | crates/nexus-runtime/src/broker/redis.rs:253-367 | from any state a run reaches, some continuation without a further crashed promotion loses the task if and only if it is neither acknowledged nor has such a copy |
| RedisStreams.PromotionCrashLosesIff | crates/nexus-runtime/src/broker/redis.rs:122-164 | after any run, a crash between the two commands of a promotion makes the task losable if and only if it is neither acknowledged nor has another live copy nobody is about to remove |
| RedisStreams.StepKeepsInv | crates/nexus-runtime/src/broker/redis.rs:639-807 | every single command and crash keeps: copies carry published tasks at allowed attempts, leases match their entries, clients work on entries in the place they expect; that leases carry the attempt of their entry is `RedisHistory.AttemptsAreRetries` |
| RedisStreams.DeleteOnlySettled | crates/nexus-runtime/src/broker/redis.rs:343-367 | no command ever deletes a stream entry that is undelivered or pending |
| RedisStreams.PromotionCrashLoses | crates/nexus-runtime/src/broker/redis.rs:122-164 | a concrete run in which the delayed retry is dropped in a crashed promotion and the retrying client then settles the entry it had replaced |
| RedisHistory.AttemptsAreRetries | crates/nexus-runtime/src/broker/redis.rs:166-341 | after any run the attempt of every copy and of every lease is one more than the retries in its history since the enqueue or the last replay, and within the limit |
| RedisHistory.RetryLimitIff | crates/nexus-runtime/src/broker/redis.rs:665-767 | a retry publishes a dead letter if and only if the attempts, counted by the history, are used up; otherwise one retry more, in the stream or with the time it is due |
| RedisHistory.RejectBuries | crates/nexus-runtime/src/broker/redis.rs:769-807 | a rejection publishes the delivery among the dead letters as it is |
| RedisHistory.BuriedOnlyExhausted | crates/nexus-runtime/src/broker/redis.rs:680-719 | unless deliveries are rejected, every dead letter has used exactly max(1, max_attempts) attempts |
| RedisHistory.NeverEarly | crates/nexus-runtime/src/broker/redis.rs:122-164 | nothing in the stream is a delayed retry, and what was promoted from one was taken out of the sorted set no sooner than it was due |
| RedisHistory.ServedInOrder | crates/nexus-runtime/src/broker/redis.rs:186-251 | the entries of one route are first read in the order they were published, each once |
| RedisHistory.AckedOnlyByWorkers | crates/nexus-runtime/src/broker/redis.rs:639-663 | only tasks some worker acknowledged count as acknowledged; retries and rejections acknowledge nothing |
| RedisProgress.AckCompletes | crates/nexus-runtime/src/broker/redis.rs:343-367 | an uninterrupted acknowledgement removes its entry and marks its task, and changes nothing else |
| RedisProgress.RetryCompletes | crates/nexus-runtime/src/broker/redis.rs:665-767 | an uninterrupted retry puts exactly one replacement in place of its entry: the next attempt at once or when due, or a dead letter |
| RedisProgress.RejectCompletes | crates/nexus-runtime/src/broker/redis.rs:769-807 | an uninterrupted rejection puts the delivery among the dead letters in place of its entry |
| RedisProgress.ReplayCompletes | crates/nexus-runtime/src/broker/redis.rs:456-521 | an uninterrupted replay moves the dead letter back to the stream for its first attempt |
| RedisProgress.NeverStuck | crates/nexus-runtime/src/broker/redis.rs:122-367 | from any state a run reaches, a task with a live copy can still be acknowledged without a further crash, wherever the copy is |
| RabbitMq.Channel.DrainDeadLetterQueue | crates/nexus-runtime/src/broker/rabbitmq.rs:345-388 | what was got is the front of the queue in order; on success all of it; on any failure nothing else changed |
| RabbitMq.Channel.RestoreDeadLetterQueue | crates/nexus-runtime/src/broker/rabbitmq.rs:390-424 | messages go back in order, each published before it is acknowledged; at a failure at most one is published and not acknowledged |
| RabbitMq.Channel.LoadDeadLetters | crates/nexus-runtime/src/broker/rabbitmq.rs:426-438 | without a failure every queue is left the same sequence and all records are returned in order; after a failure at any command nothing is lost and at most one message exists twice |
| RabbitMq.RecordsInOrder | crates/nexus-runtime/src/broker/rabbitmq.rs:426-438 | records are listed queue by queue and front to back |
| RabbitMq.Channel.FindDeadLetterReplay | crates/nexus-runtime/src/broker/rabbitmq.rs:440-476 | the record found is the first match of the first queue that has one; queues before it are put back unchanged |
| RabbitMq.Channel.FinalizeReplayedDeadLetter | crates/nexus-runtime/src/broker/rabbitmq.rs:478-501 | the target is acknowledged, the rest restored in order; failures lose nothing but the target |
| RabbitMq.Channel.ReplayDeadLetter | crates/nexus-runtime/src/broker/mod.rs:689-728 | without a failure exactly the first matching record leaves its queue and one envelope is published, with the record's task unchanged, attempt 1, a text ending in its error, and so max(1, max_attempts) deliveries before it is buried again; after a failure a record is gone only if its replay was published, and at most one message exists twice; not found changes nothing |
| RabbitMq.Partition | crates/nexus-runtime/src/broker/rabbitmq.rs:440-476 | the first match and all other messages in order |
| RouteCatalog.RouteCatalog.GetOrInsertWith | crates/nexus-runtime/src/broker/mod.rs:322-345 | from any state: builds, stores and lists a new route, returns the stored topology of a known one and changes nothing; a duplicate-free listing of the declared routes stays one |
| RouteCatalog.RouteCatalog.RegisterRoute | crates/nexus-runtime/src/broker/mod.rs:394-407 | from any state: declares a route that is not declared and lists it if it is not listed |
| RouteCatalog.RouteCatalog.Rotate | crates/nexus-runtime/src/broker/mod.rs:385-392 | from any order: the route's first occurrence moves to the back |
| RouteCatalog.RouteCatalog.ServeNext | crates/nexus-runtime/src/broker/redis.rs:166-252 | how the adapter's reserve uses the catalog: the first bound route that yields a delivery is served and rotated |
| RouteCatalog.FirstReadyMeans | crates/nexus-runtime/src/broker/mod.rs:366-383 | the route served is the first ready one of the filtered order, and none is served exactly when none is ready |
| RouteCatalog.RotationIsFair | crates/nexus-runtime/src/broker/mod.rs:366-392 | a route is passed over while bound and ready at most once for each route ahead of it |
| RouteCatalog.RotationAlternates | crates/nexus-runtime/src/broker/mod.rs:366-392 | two routes bound and ready at every reserve are served in turn |
| CatalogSections.ListedTwiceIff | crates/nexus-runtime/src/broker/mod.rs:322-407 | under every interleaving of the catalog's lock sections only declared routes are listed, each at most twice, and twice if and only if a registration listed the route while its insertion was part-way and that insertion has listed it since |
| CatalogSections.QuietMeansListed | crates/nexus-runtime/src/broker/mod.rs:322-407 | once no call is part-way the order lists exactly the declared routes, and has no duplicates if and only if no registration overtook an insertion |
| CatalogSections.OvertakingRun | crates/nexus-runtime/src/broker/mod.rs:322-407 | a concrete run from the empty catalog that lists a route twice |
| CatalogSections.UninterruptedIsAtomic | crates/nexus-runtime/src/broker/mod.rs:322-407 | the lock sections, run without interruption, do what the catalog's methods do |
| Topology.NamesCoincide | crates/nexus-runtime/src/broker/mod.rs:570-643 | for all queues, lanes and kinds, two names are equal if and only if sanitised queues and tails agree, or a dotted end of one queue starts the other's tail |
| Topology.DotlessNamesCoincide | crates/nexus-runtime/src/broker/mod.rs:570-643 | with queues free of dots, if and only if the sanitised queues agree and either kind and sanitised lane do or a main lane spells out the other kind |
| Topology.NamesInjective | crates/nexus-runtime/src/broker/mod.rs:622-643 | over letters, digits, underscore and hyphen a name determines queue, lane and kind |
| Topology.NamesSpelled | crates/nexus-runtime/src/broker/mod.rs:570-643 | with characters that are kept, names are prefix, queue, lane and suffix joined by dots |
| Topology.RegistryIsApart | crates/nexus-runtime/src/broker/mod.rs:730-736 | no route whatsoever gets the route registry's name |
| Topology.DottedLaneClashes | crates/nexus-runtime/src/broker/mod.rs:570-597 | any lane that spells out a kind has as its main name another route's retry or dead-letter name |
| Topology.DottedQueueClashes | crates/nexus-runtime/src/broker/mod.rs:570-597 | any dot can move between queue and lane without changing a name |
| Topology.ReplacedCharactersClash | crates/nexus-runtime/src/broker/mod.rs:746-757 | a route shares every name with the route of its sanitised queue and lane, which is itself if and only if every character is kept |
| Judge.SortedPairingDecides | crates/nexus-runtime/src/judge.rs:89-116 | sorting both sides and comparing pairwise within epsilon accepts if and only if some permutation of the expected numbers matches |
| Judge.ValidateOutput | crates/nexus-runtime/src/judge.rs:11-43 | accepts exactly what the effective configuration says, with defaults for anything but a validator configuration |
| Judge.CompareOutputs | crates/nexus-runtime/src/judge.rs:45-83 | every mode decides its definition: equal texts, equal token lists, equal token multisets, or matching numbers |
| Judge.CompareFloatTokens | crates/nexus-runtime/src/judge.rs:89-127 | both sides must be numbers; ordered pairs or some arrangement must be within epsilon |
| Judge.LayoutIndependent | crates/nexus-runtime/src/judge.rs:45-87 | unless texts are compared verbatim only the tokens matter, however whitespace lays them out |
| Judge.NonFloatIsEquivalence | crates/nexus-runtime/src/judge.rs:45-83 | every non-float mode is reflexive, symmetric and transitive |
| Judge.MatchableSymmetric | crates/nexus-runtime/src/judge.rs:89-116 | matching in any order is symmetric |
| Judge.MatchingTransitiveIff | crates/nexus-runtime/src/judge.rs:89-116 | matching in any order is transitive if and only if the tolerance is not positive |
| JudgeModes.ModesMean | crates/nexus-runtime/src/judge.rs:45-127 | verbatim outputs must agree as a whole; otherwise their tokens must agree one by one, in order or against some arrangement; tokens agree as texts, up to case if case is ignored, or as numbers within the tolerance |
| JudgeModes.DefaultComparesTokens | crates/nexus-runtime/src/judge.rs:11-43 | a validator configuration is used as it is; without one, outputs are accepted if and only if their tokens are the same |
| Text.TokenizeLayout | crates/nexus-runtime/src/judge.rs:85-87 | tokens laid out with any non-empty whitespace between them are given back |
| Decimal.PrintParse | crates/nexus-runtime/src/executor.rs:2065-2069 | the number printed into a stage name is the number parsed from it |
| Decimal.PaddedInjective | crates/nexus-runtime/src/executor.rs:349-351 | numbers padded to three digits differ if the numbers do, also beyond three digits |
| Execution.ValidateOjTask | crates/nexus-runtime/src/executor.rs:201-262 | succeeds exactly on valid tasks; otherwise reports a broken rule before which no other is broken, and for duplicates the number of the first testcase that repeats one |
| Execution.StageFindsOwnCase | crates/nexus-runtime/src/executor.rs:2065-2075 | with unique numbers each run stage's name leads to the directory of the testcase it was made for |
| Execution.RepeatedNumberMisleads | crates/nexus-runtime/src/executor.rs:2065-2075 | with a repeated number it leads to an earlier testcase's directory |
| Execution.WriteCasesReady | crates/nexus-runtime/src/executor.rs:344-372 | after all cases are written each directory holds its own testcase's input and answer |
| Execution.JudgeStage | crates/nexus-runtime/src/executor.rs:2076-2093 | the loop body that judges one stage, on any artifacts and files |
| Execution.StageJudges | crates/nexus-runtime/src/executor.rs:2076-2093 | on prepared artifacts, judging a stage yields the verdict on that testcase's own output, input and answer, and leaves every other case's files in place |
| Execution.Execute | crates/nexus-runtime/src/executor.rs:2024-2126 | on any artifacts: compile, judge compile and run stages in order, each only after the one before succeeded; what its verdicts mean is `Verdicts.ExecutionMeans` |
| Execution.ExecuteRefinesJudging | crates/nexus-runtime/src/executor.rs:2024-2126 | for every validated task, executing what was prepared, with stage names, lookups and files, is judging each testcase on its own output, input and answer up to the first that is not accepted |
| Execution.ExecutedOutcomeIsSound | crates/nexus-runtime/src/executor.rs:2062-2125 | the cases are a prefix of the testcases with their numbers and scores, all but the last accepted; Completed iff every stage ran and was accepted, Failed otherwise |
| Projection.ScoresOf | crates/nexus-oj/src/application.rs:659-675 | score and maximal score are the sums over the accepted prefix and over the cases that ran, modulo 2^32 |
| Projection.ScoreAtMostMaxIff | crates/nexus-oj/src/application.rs:659-675 | the score is at most the maximal score if and only if the points of the failing case do not wrap the sum |
| Projection.ScoresExact | crates/nexus-oj/src/application.rs:659-675 | without overflow both are the exact sums and the score is at most the maximum |
| Projection.ScoreCanExceedMax | crates/nexus-oj/src/application.rs:659-675 | two cases whose submission shows a score above its maximum |
| Projection.WrongAnswerScanAgreesIff | crates/nexus-oj/src/application.rs:677-733 | for any cases, looking for a wrong answer first shows the first failing case if and only if that one is the wrong answer or no later case is |
| Projection.ProjectionFaithful | crates/nexus-oj/src/application.rs:620-733 | for every outcome an execution returns: accepted iff all stages were, otherwise exactly the mapped compile failure with no points, or the last case's failure and message |
| Projection.AcceptedIffEveryTestcaseIs | crates/nexus-oj/src/application.rs:620-657 | end to end: a submission is shown as accepted iff its program and its judge compiled and every testcase, judged on its own, was accepted |
| Verdicts.ExecutionMeans | crates/nexus-runtime/src/executor.rs:566-640 | Completed if and only if everything compiled and every testcase is passed, the special judge, shown its input, output and answer, exiting with 0, or the validator accepting; each case's status and error text tell exactly what happened on its testcase, 1 being a wrong answer |
| Verdicts.ExecutionFailsIff | crates/nexus-runtime/src/executor.rs:2024-2126 | an execution fails with an error if and only if a compile stage could not start or a testcase gets no verdict while all before it are passed |
| Verdicts.SubmissionMeans | crates/nexus-oj/src/application.rs:620-840 | end to end: accepted if and only if everything compiled and every testcase is passed; otherwise the failure that stopped the execution, by its kind and its own error text; the points of the testcases passed out of those that ran |
| Verdicts.WhileWaiting | crates/nexus-oj/src/application.rs:620-657 | what is shown for every other status, and without an outcome |
| WorkersFromEnv.RuntimeWorkerGroupsFromEnv | crates/nexus-config/src/lib.rs:356-395 | the loop returns the first error in order or all groups; no value or blanks give the default groups |
| WorkersFromEnv.ResultsUsable | crates/nexus-config/src/lib.rs:356-413 | every successful result has a group, each group a binding, every queue and lane trimmed and non-empty, every name trimmed |
| WorkersFromEnv.SpellingIsRead | crates/nexus-config/src/lib.rs:356-413 | any spelling of groups, with whitespace around every part and empty items and segments anywhere, is read as those groups |
| WorkersFromEnv.PrintParse | crates/nexus-config/src/lib.rs:356-413 | printing any non-empty list of groups, with fields free of the separators that would be misread, and parsing it returns the list |
| EnvErrors.RefusedIff | crates/nexus-config/src/lib.rs:356-413 | exactly which text is refused and with which error: that of the first segment, and in it of the first item, that cannot be read, or that there is none; blanks give the default groups |
| FailureWindow.FailureWindows.RecordBrokerFailure | crates/nexus-runtime/src/metrics.rs:238-247 | the failure is appended and older ones dropped from the front only |
| FailureWindow.FailureWindows.BrokerFailureHealthSnapshot | crates/nexus-runtime/src/metrics.rs:214-236 | prunes before it reads; an unknown broker gets the default and is not recorded |
| FailureWindow.PruneFailureWindow | crates/nexus-runtime/src/metrics.rs:249-253 | pops exactly the old entries at the front |
| FailureWindow.SnapshotIsExact | crates/nexus-runtime/src/metrics.rs:214-253 | with a clock that does not step back the queue read is the full history of the last five minutes, so count, last failure and flags are exact; an active recovery window means some failure within a minute and a count of at least one |
| FailureWindow.SnapshotMeans | crates/nexus-runtime/src/metrics.rs:214-253 | with such a clock a snapshot tells how many failures the last five minutes saw, the latest of them, whether there were at least three and whether one was within a minute, for brokers that never failed as well |
| FailureWindow.QueueIsSuffix | crates/nexus-runtime/src/metrics.rs:238-253 | whatever the clock does, the queue is a suffix of the history of failures |
| FailureWindow.SnapshotsExactIff | crates/nexus-runtime/src/metrics.rs:214-253 | for clock readings and a look at some time, every way of failing and looking at them gives an exact snapshot if and only if no reading drops a failure that is in the window again and none leaves a failure too old behind one that is not |
| FailureWindow.ClockStepsBack | crates/nexus-runtime/src/metrics.rs:214-253 | two runs of a clock stepping back: a hidden failure and one counted too long |

## Left out

- The NATS adapter: its attempt is the server's delivery counter and its protocol is not in this code.
- Real clients, wire formats and reconnects inside an operation; brokers are abstract state behind the commands the adapters send.
- RabbitMQ's normal path of enqueue, reserve, retry and reject: the lease is removed before the acknowledgement looks it up (`crates/nexus-runtime/src/broker/rabbitmq.rs:254`), so nothing is acknowledged and no claim is made.
- RedisStreams.AtLeastOnce: the idle time a reclaim waits for is not modelled; any pending entry may be reclaimed at any time, which only adds runs. Route registry, consumer-group creation and skipping of undecodable payloads are not modelled.
- RedisStreams.DeleteOnlySettled: says nothing about two clients that delete the same entry one after the other; the second finds nothing.
- RedisStreams.PromotionCrashLosesIff: continuations with further crashed promotions are not counted as losing; `CrashKeepsSafeIff` says what each of them does.
- RedisHistory.NeverEarly: clocks of different clients may differ; a promotion is compared with the time its own client read.
- LockSections.EveryInterleaving: a lock section is one step and the clock is read once an operation; lock poisoning, which turns every later operation into an error, is not modelled.
- Lifecycle.LifecycleAgreement: replays are not part of the runs, because replaying a dead letter leaves the snapshot as it is; publishing a snapshot and emitting its event is one step; the error text of a retry is a constant.
- Lifecycle.TraceGrammar: only events emitted by workers; the Queued event that `schedule` emits after enqueueing may arrive at any time.
- Execution.ExecuteRefinesJudging: a process changes no case file but its own output and error file, and only its own directory; starting processes, sandboxes, excerpts, exit signals, timings and memory figures are not modelled, nor are the source, manifest and compile-stage files.
- Projection.ProjectionFaithful: requires that no stage is Skipped, a status no code path produces (`crates/nexus-runtime/src/executor.rs:2302-2306`); a skipped compile stage would fail the execution and be shown as a runtime error.
- Judge.SortedPairingDecides: rounding, NaN and infinities of floating-point numbers are not modelled; numbers are reals.
- Judge.CompareOutputs: the library sort is represented by the sorted permutation it returns; the lower-casing table is an arbitrary function.
- WorkersFromEnv.RuntimeWorkerGroupsFromEnv: error messages are constructors holding the text they quote.
- RouteCatalog.RotationIsFair: sequential calls only; which routes yield a delivery is an input of each reserve. Looking a topology up, errors of the broker and the order in which `topologies` lists keys are not modelled.
- FailureWindow.SnapshotIsExact: the fallback for a system clock before 1970 and the metric counters are not modelled.
- Topology.NamesInjective: NATS subjects and the consumer-group and routing-key strings are built alike and left out.
- Submission status over time: events are applied in whatever order they arrive, so nothing is claimed about it never going back.
- Job-platform mapping, handlers, pagination, gateway summaries, statistics, replay history, alerting and the frontend.
