# Keyed debounce registry

A model of `Debouncer`, the keyed debounce scheduler of the `debounce` Android library.
A caller submits a `Runnable` under a string key. The debouncer creates a `Worker` for
it, remembers that worker in the map `runnables` under the key, and posts it to an
Android `Handler` with a delay. A new submission under the same key removes the
previous worker's delayed message and replaces it. `clear` cancels a key and `flush`
runs it at once. `clearAll` and `flushAll` do the same for every key. When the delay
elapses, the handler runs the worker. The worker drops its key from the map and posts
the action to its handler.

Five modules:

- `Registry` (registry.dfy). The state, as values:
  - the static `instance != null` flag, the default delay (250 ms) and the `runnables` map;
  - the part of the handlers the registry touches: the queued delayed messages, by worker
    identity, and the log of actions handed to `Handler.post`.

  Each public operation is one function. An invariant `Inv` holds of every state reached:
  every mapped worker carries its key and its delayed message is still queued. The
  per-key lifecycle lemmas are stated with `PendingFor(s, k)`, the queued messages of `k`.
  A key is settled when its only queued message is that of its mapped worker.
  `debounce`, `clear`, `clearAll` and message delivery keep every key settled; `flush`
  is the one operation that breaks this.
- `Bulk` (bulk.dfy). `clearAll` and `flushAll` over a snapshot of the keys, with
  inductive lemmas for their whole effect.
- `LiveIteration` (live_iteration.dfy). `clearAll` and `flushAll` as written: a loop over
  the live `HashMap` entry set whose iterator is fail-fast (see Findings).
- `Debouncing` (debouncer.dfy). The class `Debouncer`, with fields updated in place by
  methods. The constructor yields `Registry.Initial()`. `GetInstance`,
  `SetDefaultDelayTime`, `Debounce`, `Clear`, `Run`, `Flush` and `Fire` are proved to
  perform exactly the `Registry` function of the same name. The three shorter
  `debounce` overloads perform `Registry.Debounce` with their defaults filled in. So
  the lemmas about those functions hold of the class. `ClearAll` and `FlushAll` have no
  single `Registry` function; their own postconditions state their effect.
- `Scenarios` (scenarios.dfy). The unit tests' expectations, stated for every key and
  action. Also the two sequences in which a delayed message left behind by `flush`
  misbehaves.

The flush hazard is modelled as the code has it. `flush(k)` calls `worker.run()`
directly and does not remove the worker's delayed message. When that message later
fires, the action runs a second time (`FlushThenFireRunsTwice`). If `k` was submitted
again in between, the stale message also removes the newer worker from the map. The
newer worker's message stays queued, so a later `clear(k)` no longer cancels it
(`StaleFireDefeatsClear`).

The model follows the code as written:
- No key is rejected as empty. The code only has `@NonNull` annotations.
- `Worker.run()` removes the key unconditionally. It does not guard against a flush
  that already ran the worker.
- `clearAll`/`flushAll` iterate the live map, not a snapshot. This is modelled as
  written in `LiveIteration`. The class uses a snapshot, as recorded in Findings.

## Model

| member | source | states |
|---|---|---|
| Registry.Initial | library/src/main/java/com/rutvij/debounce/Debouncer.java:24-53 | before any instance exists the invariant holds and there is no instance |
| Registry.InitialSettled | library/src/main/java/com/rutvij/debounce/Debouncer.java:50-53 | initially no key has any queued message |
| Registry.PostDelayed | library/src/main/java/com/rutvij/debounce/Debouncer.java:114 | `postDelayed` queues exactly one message for the worker and leaves every other message and the post log alone |
| Registry.RemoveCallbacks | library/src/main/java/com/rutvij/debounce/Debouncer.java:136 | `removeCallbacks(worker)` drops exactly the messages of that handler whose callback is that worker |
| Registry.Dequeue | library/src/main/java/com/rutvij/debounce/Debouncer.java:114 | when the message that `postDelayed` queued is delivered, the looper takes exactly that message off the queue and posts nothing |
| Registry.PostNow | library/src/main/java/com/rutvij/debounce/Debouncer.java:215 | `post` appends the action to the log and queues nothing |
| Registry.GetInstance | library/src/main/java/com/rutvij/debounce/Debouncer.java:58-64 | afterwards the instance exists; the first call yields an empty map and delay 250, and later calls change nothing |
| Registry.SetDefaultDelayTime | library/src/main/java/com/rutvij/debounce/Debouncer.java:72-79 | succeeds exactly when no instance exists, then creates it with that delay and an empty map; otherwise it is refused and the state is unchanged |
| Registry.Clear | library/src/main/java/com/rutvij/debounce/Debouncer.java:133-139 | the key leaves the map, exactly its worker's delayed message is cancelled, nothing is posted, the size drops by one; an absent key changes nothing |
| Registry.CancelRegistered | library/src/main/java/com/rutvij/debounce/Debouncer.java:135-136 | removing the callbacks of a registered worker cancels that worker's message and no other |
| Registry.DistinctIds | library/src/main/java/com/rutvij/debounce/Debouncer.java:112-113 | workers under different keys are different objects |
| Registry.Debounce | library/src/main/java/com/rutvij/debounce/Debouncer.java:108-115 | the key maps to a new worker with a fresh identity, any previous worker's message is cancelled, the new message is queued with the given delay and handler, and nothing is posted |
| Registry.Insert | library/src/main/java/com/rutvij/debounce/Debouncer.java:112-114 | `put` plus `postDelayed` of a fresh worker grows the map by one and queues its message |
| Registry.FreshWorkerId | library/src/main/java/com/rutvij/debounce/Debouncer.java:112 | a `new Worker` is distinct from every worker mapped or queued |
| Registry.Run | library/src/main/java/com/rutvij/debounce/Debouncer.java:213-216 | `Worker.run()` removes whatever the map holds under its key and posts its action to its handler |
| Registry.RunKeepsInv | library/src/main/java/com/rutvij/debounce/Debouncer.java:213-216 | running any worker keeps the invariant once the instance exists |
| Registry.Flush | library/src/main/java/com/rutvij/debounce/Debouncer.java:162-167 | a pending key leaves the map and its action is posted once, while its delayed message stays queued; an absent key changes nothing |
| Registry.Fire | library/src/main/java/com/rutvij/debounce/Debouncer.java:213-216 | delivery of a queued message dequeues it and runs its worker: that worker's key leaves the map and its action is posted |
| Registry.ClearPending | library/src/main/java/com/rutvij/debounce/Debouncer.java:133-139 | `clear(k)` removes exactly the cleared worker's message from every key's queued set |
| Registry.InsertPending | library/src/main/java/com/rutvij/debounce/Debouncer.java:112-114 | adding a worker adds its identity to its own key's queued set only |
| Registry.DebouncePending | library/src/main/java/com/rutvij/debounce/Debouncer.java:108-115 | `debounce(k, …)` swaps the old worker's message for the new one in `k`'s queued set and leaves every other key's set unchanged |
| Registry.DebounceLastWriteWins | library/src/main/java/com/rutvij/debounce/Debouncer.java:108-115 | for a settled key, after re-submission the only queued message for it is the new worker's, carrying the last action and the last delay |
| Registry.DebounceSize | library/src/main/java/com/rutvij/debounce/Debouncer.java:109-113 | the map grows by one exactly when the key was not pending |
| Registry.DebounceOtherKeys | library/src/main/java/com/rutvij/debounce/Debouncer.java:108-115 | other keys keep their queued messages and stay settled |
| Registry.ClearCancels | library/src/main/java/com/rutvij/debounce/Debouncer.java:127-139 | after `clear` a settled key has no queued message left, so its action can no longer run, and nothing was posted |
| Registry.FireSettles | library/src/main/java/com/rutvij/debounce/Debouncer.java:213-216 | the natural timeout of a settled key's worker posts its action once and leaves the key absent with nothing queued |
| Registry.FlushLeavesDelayedPost | library/src/main/java/com/rutvij/debounce/Debouncer.java:155-167 | after `flush(k)` the key is absent but its worker's delayed message is still queued |
| Registry.ClearOtherKeys | library/src/main/java/com/rutvij/debounce/Debouncer.java:133-139 | `clear(k)` leaves every other settled key settled |
| Registry.FireOtherKeys | library/src/main/java/com/rutvij/debounce/Debouncer.java:213-216 | delivering a message of another key leaves a settled key settled |
| Registry.DebounceKeepsSettled | library/src/main/java/com/rutvij/debounce/Debouncer.java:108-115 | `debounce` keeps every key settled |
| Registry.ClearKeepsSettled | library/src/main/java/com/rutvij/debounce/Debouncer.java:133-139 | `clear` keeps every key settled |
| Registry.QueuedIsRegistered | library/src/main/java/com/rutvij/debounce/Debouncer.java:113-114 | when every key is settled, each queued message belongs to the worker mapped under its key |
| Registry.FireKeepsSettled | library/src/main/java/com/rutvij/debounce/Debouncer.java:213-216 | delivering any queued message keeps every key settled |
| Bulk.SnapshotKeys | library/src/main/java/com/rutvij/debounce/Debouncer.java:122 | lists every key of the map exactly once |
| Bulk.ClearEach | library/src/main/java/com/rutvij/debounce/Debouncer.java:121-125 | the snapshot `clearAll()`'s loop: clearing a list of keys posts nothing and keeps the configuration |
| Bulk.FlushEach | library/src/main/java/com/rutvij/debounce/Debouncer.java:149-153 | the snapshot `flushAll()`'s loop: flushing a list of keys keeps every delayed message queued and keeps the configuration |
| Bulk.PostsOf | library/src/main/java/com/rutvij/debounce/Debouncer.java:149-153 | one post per flushed key |
| Bulk.PostsOfAt | library/src/main/java/com/rutvij/debounce/Debouncer.java:149-153 | the i-th post is the action of the worker under the i-th key |
| Bulk.ClearEachEffect | library/src/main/java/com/rutvij/debounce/Debouncer.java:121-125 | in the snapshot `clearAll()`, clearing distinct pending keys removes exactly those keys and exactly their workers' messages |
| Bulk.FlushEachEffect | library/src/main/java/com/rutvij/debounce/Debouncer.java:149-153 | in the snapshot `flushAll()`, flushing distinct pending keys removes exactly those keys and posts their actions in list order |
| Bulk.DistinctCard | library/src/main/java/com/rutvij/debounce/Debouncer.java:122 | a list without repetitions has as many distinct keys as entries |
| Bulk.SnapshotCovers | library/src/main/java/com/rutvij/debounce/Debouncer.java:122 | a snapshot covers the whole map, has its size and selects all its workers |
| Bulk.ClearEachKeepsSettled | library/src/main/java/com/rutvij/debounce/Debouncer.java:121-125 | the snapshot `clearAll()` keeps every key settled |
| Bulk.ClearAllEmpties | library/src/main/java/com/rutvij/debounce/Debouncer.java:117-125 | the snapshot `clearAll()` empties the map, cancels the message of every worker it held and posts nothing |
| Bulk.PostsCoverKeys | library/src/main/java/com/rutvij/debounce/Debouncer.java:146-147 | every pending key's action appears in the flush posts at its own position |
| Bulk.FlushAllPostsEachOnce | library/src/main/java/com/rutvij/debounce/Debouncer.java:142-153 | the snapshot `flushAll()` empties the map and posts the action of every key pending at the call exactly once, one per key, keeping every delayed message queued |
| LiveIteration.Apply | library/src/main/java/com/rutvij/debounce/Debouncer.java:122-123 | the loop body removes the key it visits |
| LiveIteration.LiveLoop | library/src/main/java/com/rutvij/debounce/Debouncer.java:122-124 | the fail-fast loop keeps the invariant on every path |
| LiveIteration.AsWritten | library/src/main/java/com/rutvij/debounce/Debouncer.java:121-125 | the loop started on a fresh iterator keeps the invariant |
| LiveIteration.AsWrittenThrows | library/src/main/java/com/rutvij/debounce/Debouncer.java:121-153 | with two or more pending keys, `clearAll`/`flushAll` handle one key and then throw `ConcurrentModificationException`, leaving every other key registered with its worker |
| LiveIteration.AsWrittenSmall | library/src/main/java/com/rutvij/debounce/Debouncer.java:121-153 | with at most one pending key the loop completes and agrees with the snapshot version |
| Debouncing.Debouncer.constructor | library/src/main/java/com/rutvij/debounce/Debouncer.java:50-53 | the fields start as the initial registry state |
| Debouncing.Debouncer.GetInstance | library/src/main/java/com/rutvij/debounce/Debouncer.java:58-64 | performs `Registry.GetInstance` on the fields |
| Debouncing.Debouncer.SetDefaultDelayTime | library/src/main/java/com/rutvij/debounce/Debouncer.java:72-79 | performs `Registry.SetDefaultDelayTime` on the fields and returns its status |
| Debouncing.Debouncer.Debounce | library/src/main/java/com/rutvij/debounce/Debouncer.java:108-115 | performs `Registry.Debounce` and keeps the invariant |
| Debouncing.Debouncer.DebounceWithDelay | library/src/main/java/com/rutvij/debounce/Debouncer.java:86-88 | `Registry.Debounce` on the main handler |
| Debouncing.Debouncer.DebounceDefault | library/src/main/java/com/rutvij/debounce/Debouncer.java:96-98 | `Registry.Debounce` with the default delay on the main handler |
| Debouncing.Debouncer.DebounceOnHandler | library/src/main/java/com/rutvij/debounce/Debouncer.java:176-178 | `Registry.Debounce` with the default delay on the given handler |
| Debouncing.Debouncer.Clear | library/src/main/java/com/rutvij/debounce/Debouncer.java:133-139 | performs `Registry.Clear` and keeps the invariant |
| Debouncing.Debouncer.Run | library/src/main/java/com/rutvij/debounce/Debouncer.java:213-216 | performs `Registry.Run` and keeps the invariant |
| Debouncing.Debouncer.Flush | library/src/main/java/com/rutvij/debounce/Debouncer.java:162-167 | performs `Registry.Flush` and keeps the invariant |
| Debouncing.Debouncer.Fire | library/src/main/java/com/rutvij/debounce/Debouncer.java:212-216 | the handler's delivery of a queued message performs `Registry.Fire` |
| Debouncing.Debouncer.ClearAll | library/src/main/java/com/rutvij/debounce/Debouncer.java:117-125 | the map ends empty, exactly the messages of the workers it held are cancelled, nothing is posted, and the configuration is kept |
| Debouncing.Debouncer.FlushAll | library/src/main/java/com/rutvij/debounce/Debouncer.java:142-153 | the map ends empty, each pending key's action is posted once in the returned order, which lists every pending key once, and every delayed message stays queued |
| Scenarios.DelayMustBeSetBeforeGetInstance | library/src/test/java/com/github/rutvijkumarshah/debounce/DebounceTests.java:27-50 | setting the delay first creates the instance with that delay, `getInstance()` then returns it unchanged, and setting it again is refused |
| Scenarios.SubmitFirst | library/src/test/java/com/github/rutvijkumarshah/debounce/DebounceTests.java:54 | the first submission on a fresh debouncer makes its key the only pending one, with the only queued message |
| Scenarios.Resubmit | library/src/test/java/com/github/rutvijkumarshah/debounce/DebounceTests.java:103-104 | re-submitting the only pending key replaces both its worker and its queued message |
| Scenarios.FireSole | library/src/test/java/com/github/rutvijkumarshah/debounce/DebounceTests.java:56 | firing the only queued message empties map and queue and posts its action |
| Scenarios.TaskRemovedAfterFinished | library/src/test/java/com/github/rutvijkumarshah/debounce/DebounceTests.java:52-58 | one pending task; after its message fires the map is empty and the action was posted once |
| Scenarios.ThreeSubmitted | library/src/test/java/com/github/rutvijkumarshah/debounce/DebounceTests.java:62-65 | three distinct keys give three workers, each with its message queued |
| Scenarios.SubmitStep | library/src/test/java/com/github/rutvijkumarshah/debounce/DebounceTests.java:62-64 | submitting a new key adds one worker and keeps every other key and queued message |
| Scenarios.FlushTwoThenAll | library/src/test/java/com/github/rutvijkumarshah/debounce/DebounceTests.java:66-76 | two flushes leave one key, its worker intact, and `flushAll` empties the map having posted the three actions in flush order |
| Scenarios.PendingTasksMatchNotExecuted | library/src/test/java/com/github/rutvijkumarshah/debounce/DebounceTests.java:60-77 | sizes go 3, 2, 1 and then 0; the key left is the first one; each action is posted once, and all three delayed messages remain queued |
| Scenarios.FlushExecutesAndRemoves | library/src/test/java/com/github/rutvijkumarshah/debounce/DebounceTests.java:79-87 | nothing runs before `flush`; after it the map is empty and the action was posted once |
| Scenarios.ClearRemovesWithoutExecuting | library/src/test/java/com/github/rutvijkumarshah/debounce/DebounceTests.java:89-97 | after `clear` the map is empty, nothing was posted and nothing is left queued |
| Scenarios.LastSubmissionRuns | library/src/test/java/com/github/rutvijkumarshah/debounce/DebounceTests.java:99-107 | three submissions under one key leave only the last queued; running the UI tasks posts only the last action |
| Scenarios.FlushThenFireRunsTwice | library/src/main/java/com/rutvij/debounce/Debouncer.java:162-167 | a flush followed by the same worker's timeout posts the action twice |
| Scenarios.FlushThenResubmit | library/src/main/java/com/rutvij/debounce/Debouncer.java:108-115 | debounce, flush and debounce again leave two messages queued for one key |
| Scenarios.StaleFire | library/src/main/java/com/rutvij/debounce/Debouncer.java:213-216 | a stale message removes the newer worker from the map without cancelling its message |
| Scenarios.StaleFireDefeatsClear | library/src/main/java/com/rutvij/debounce/Debouncer.java:213-216 | after the stale fire, `clear(k)` changes nothing and the newer action still runs: three posts in all |

## Left out

- The Android `Handler`/`Looper` and time. A queued delayed message is an entry in a
  map, and its delivery is the explicit step `Fire`. The model does not order
  deliveries by delay or compute delays in time.
- Threads. Every operation is one atomic step. The `@MainThread` annotations are not
  enforced.
- The bodies of the callers' runnables. An action is an identity, and running it is
  an entry in the post log.
- The `@VisibleForTesting` getters (`getDefaultDelayTimeMillis`, `getMainHandler`,
  `getRunnables`). They only read fields, which the model exposes directly.
- `Worker`'s accessors `getRunnable`, `getHandler`, `getKey`. These are the fields of
  the `Worker` datatype.
- `Debouncer.reset()`, which the unit tests call in `tearDown`. It is not part of
  `Debouncer.java`, so it is not part of this model. Each scenario starts from an
  arbitrary fresh state instead.
- The test's counter values (10, 20, 30). The scenarios state the same expectations as
  which actions were posted, for any actions and keys.
- `MainActivity.java` (the sample app) is not part of this model.
- Java `null` arguments. The parameters are `@NonNull` and the types here have no null.
- The order of `HashMap` iteration. `FlushAll` returns the order it used, which is
  any listing of the pending keys.
- Debouncing.Debouncer.ClearAll: follows the snapshot semantics, not the code's
  iteration over the live map, which throws with two or more keys (see Findings).
- Debouncing.Debouncer.FlushAll: follows the snapshot semantics, not the code's
  iteration over the live map, which throws with two or more keys (see Findings).

## Findings

| source | as written | input that shows it | evidently intended | confidence | as-written member | corrected member |
|---|---|---|---|---|---|---|
| library/src/main/java/com/rutvij/debounce/Debouncer.java:121-125 | `clearAll()` loops over `runnables.entrySet()` and calls `clear`, which removes the entry from the same map during iteration; the fail-fast iterator then throws `ConcurrentModificationException` | two pending keys: the first is cleared, then the exception is thrown and the second key stays pending with its message queued | every pending key is cleared and its message cancelled | high (not executed) | LiveIteration.AsWrittenThrows | Debouncing.Debouncer.ClearAll |
| library/src/main/java/com/rutvij/debounce/Debouncer.java:149-153 | `flushAll()` loops over `runnables.entrySet()` and calls `flush`, whose `Worker.run()` removes the entry during iteration; the iterator then throws `ConcurrentModificationException` | two pending keys: the first action is posted, then the exception is thrown and the second key stays pending | every pending action is posted once and the map ends empty | high (not executed) | LiveIteration.AsWrittenThrows | Debouncing.Debouncer.FlushAll |
