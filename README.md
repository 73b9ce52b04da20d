# Gerbil scenario runner — a Dafny model

Gerbil is a tiny JavaScript test runner. `scenario(description, tests)`
builds a `Gerbil` runner over a mapping from test names to functions.
`enqueue` takes the four reserved keys `setup`, `before`, `after` and
`cleanup` out of the mapping as hooks, and queues every other entry in a
`Gerbil.Queue`. `consume` then calls `setup`, runs `before` / `execute` /
`after` around each test it pulls, and finally calls `cleanup`.

`execute` turns an exception raised by a test into a logged failure. Once
every counted test has finished, it logs the summary. An exception raised
by a hook is not caught, so it ends the run. `execute` logs the summary
before the `after` that follows it, so a run that `after` or `cleanup`
aborts still logs the summary once when every test was counted. Every test
a run invoked is counted once, whether or not a hook aborts the run. The prototype adds
`set_timeout` and three assertion helpers (`assert`, `assert_throw` and
`assert_equal`) that count assertions and raise on failure.

The project has these modules:

- `JsValues` models the JavaScript operands the assertions look at:
  `typeof`, truthiness, `== undefined` and `.constructor`.
- `GerbilQueue` models `Gerbil.Queue` as a class. It has an array store and
  a read offset, with the compaction rule of `pull`. A ghost `Contents`
  holds the logical FIFO contents.
- `Assertions` holds the verdicts of the assertion helpers and the
  constructor switch of `assert_equal`.
- `RunnerSpec` is the runner as pure functions:
  - `HooksOf` and `NonHooks` model extraction and queueing;
  - `Execute`, `Step`, `Drain`, `Consume` and `ScenarioRun` model the run;
  - a run produces counters, an event log and how it ended (`Completed`, or
    `Aborted` by a named hook with its error);
  - the lemmas state what a run does.
- `Runner` holds the class `Gerbil`, whose methods update the counters,
  hooks, queue and a ghost trace of logged events in place. `Execute`,
  `Step`, `DrainQueue` and `Consume` are proved equal to the `RunnerSpec`
  functions of the same names, and `Scenario`, the top-level `scenario`
  function, to `ScenarioRun`. The other methods state their effect
  directly.

User callbacks are modelled by their outcome:
- a function, whose outcome (return, or raise a given error) may differ
  from call to call: it follows a script for its first calls, then one
  steady outcome;
- a non-function value, which raises a TypeError when called, or is
  replaced by a no-op when it is falsy and used as a hook.

`setup`, `cleanup` and each test are called at most once per run. `before`
and `after` are called once per pulled test, so a call's number is the
number of tests pulled before it. The drain loop counts them for this.

The log is a sequence of events, with one event for each of the following:
- the banner;
- a hook call;
- a test call;
- an `ok` line, with the running assertion total;
- a `fail` line;
- the summary.

## Model

| member | source | states |
|---|---|---|
| GerbilQueue.Queue.constructor | lib/gerbil.js:99-101 | a new queue has an empty store, offset zero and no contents |
| GerbilQueue.Queue.Length | lib/gerbil.js:103-105 | `length()` is the number of items still to be pulled, and is zero exactly when the store is empty |
| GerbilQueue.Queue.HeadInBounds | lib/gerbil.js:111-113 | when the store is not empty, `queue[offset]` is in bounds and is the head of the contents |
| GerbilQueue.Queue.StoreBounded | lib/gerbil.js:115-118 | compaction keeps the store at most twice the number of unconsumed items |
| GerbilQueue.Queue.Push | lib/gerbil.js:107-109 | `push` appends the item at the tail of the contents and keeps the offset |
| GerbilQueue.Queue.Pull | lib/gerbil.js:111-121 | on an empty queue, `pull` returns nothing and changes nothing; otherwise it returns the head and drops it from the contents; when the advanced offset reaches half the store, the store is sliced to its unconsumed suffix and the offset reset to zero, and otherwise the store is kept and the offset advances by one |
| JsValues.Nullish | lib/gerbil.js:153 | `== undefined` holds for undefined and null only (a definition: its use is stated by `Runner.Gerbil.AssertEqual`) |
| JsValues.Truthy | lib/gerbil.js:136 | JavaScript truthiness, which `assert` tests and which decides whether `extract_test` falls back to a no-op: undefined, null, false, 0 and "" are falsy (a definition: its use is stated by `Runner.Gerbil.Assert` and `RunnerSpec.HookOrNoOp`) |
| JsValues.ConstructorOf | lib/gerbil.js:158 | `.constructor` of a defined operand, read by the switch of `assert_equal` (a definition: its use is stated by `Assertions.CompareByConstructor`) |
| JsValues.TypeOf | lib/gerbil.js:154 | `typeof` gives "undefined" exactly for undefined, "object" exactly for null, arrays and objects, and "function" exactly for functions |
| Assertions.Compared | lib/gerbil.js:158-169 | the verdict of the constructor switch as a relation between the operands and the check (a definition: `Assertions.CompareByConstructor` is proved to compute it) |
| Assertions.CompareByConstructor | lib/gerbil.js:158-169 | two arrays pass exactly when their elements are equal; otherwise the failure is different lengths, or the first differing element after an equal prefix; numbers fail exactly when unequal; every other constructor passes, strings included (`case String, Number` only matches `Number`) |
| Runner.Gerbil.constructor | lib/gerbil.js:3-11 | all counters start at zero, the queue starts empty, and description and tests are stored |
| Runner.Gerbil.ExtractTest | lib/gerbil.js:22-26 | the key is deleted from the mapping, and the returned hook is its value, or a no-op when that value is missing or falsy |
| Runner.Gerbil.Enqueue | lib/gerbil.js:57-72 | the four hooks come from the original mapping; no reserved key is left in it; the other entries are queued in enumeration order and counted; the banner is logged |
| Runner.Gerbil.QueueTests | lib/gerbil.js:64-71 | the loop pushes one record per entry, in order, and adds the number of entries to `count` |
| Runner.Gerbil.Ok | lib/gerbil.js:47-50 | `success` goes up by one, and the name and running assertion total are logged |
| Runner.Gerbil.Fail | lib/gerbil.js:52-55 | `failures` goes up by one, and the failure is logged |
| Runner.Gerbil.Summary | lib/gerbil.js:87-90 | the counters are logged as the summary |
| Runner.Gerbil.Execute | lib/gerbil.js:28-45 | counters and log become exactly those of `RunnerSpec.Execute` |
| Runner.Gerbil.Step | lib/gerbil.js:80-82 | one loop iteration (`before`, `execute`, `after`), given the number of the hooks' call, changes the counters and log exactly as `RunnerSpec.Step`, including the abort when a hook raises |
| Runner.Gerbil.DrainQueue | lib/gerbil.js:79-83 | the `while (test = queue.pull())` loop ends with the result, counters, log and unpulled queue contents of `RunnerSpec.Drain` over the queue's initial contents, starting from the first call of `before` and `after` |
| Runner.Gerbil.Consume | lib/gerbil.js:74-85 | `consume` ends with the result, counters, log and queue contents of `RunnerSpec.Consume` over the current hooks and queue |
| Runner.Gerbil.SetTimeout | lib/gerbil.js:125-132 | `timeout` grows by the given milliseconds |
| Runner.Gerbil.Assert | lib/gerbil.js:134-137 | the assertion is always counted, and fails exactly when the expectation is falsy |
| Runner.Gerbil.AssertThrow | lib/gerbil.js:139-150 | the assertion is always counted; given a defined expected value, it passes exactly when `fn` raises a value of a different `typeof`, and fails as not raised when `fn` returns; a TypeError escapes when `.name` is read on undefined or null in the `catch`; `fn` returning with `expected_error` undefined passes |
| Runner.Gerbil.AssertEqual | lib/gerbil.js:152-170 | an undefined or null operand, or operands of different `typeof`, fail without counting; otherwise the assertion is counted once and the constructor switch decides |
| Runner.Prepare | lib/gerbil.js:173-175 | after construction and `enqueue`, the hooks are those of the mapping, the queue holds exactly its non-reserved entries, and every counter except `count` is zero |
| Runner.Scenario | lib/gerbil.js:173-177 | `scenario` ends with exactly the result, counters and log of `RunnerSpec.ScenarioRun`, and counts the non-reserved entries |
| RunnerSpec.Lookup | lib/gerbil.js:23 | `tests[key]`: the value of the first entry with that key, or nothing (a definition: its properties are stated by `RunnerSpec.LookupFinds`, `RunnerSpec.LookupRemoved` and `RunnerSpec.LookupAfterRemove`) |
| RunnerSpec.LookupFinds | lib/gerbil.js:23 | a key that reads as a value has an entry with that value, and a key that reads as missing has no entry |
| RunnerSpec.Invoke | lib/gerbil.js:78-84 | the outcome of a callback's call with a given number: a function follows its script, then its steady outcome; a non-function raises a TypeError (a definition: the run lemmas state how hook calls are numbered) |
| RunnerSpec.Remove | lib/gerbil.js:24 | after `delete`, exactly the entries with other keys remain |
| RunnerSpec.HookOrNoOp | lib/gerbil.js:25 | a missing or falsy value becomes a no-op, any other value is kept, and on every call the result only raises when the value found raises |
| RunnerSpec.HooksOf | lib/gerbil.js:59-62 | the four hooks `enqueue` extracts, each read from the original mapping (a definition: its properties are stated by `RunnerSpec.HooksSurviveExtraction` and `RunnerSpec.HookOrNoOp`) |
| RunnerSpec.NonHooks | lib/gerbil.js:64-71 | the queued entries are exactly those whose key is not reserved |
| RunnerSpec.Records | lib/gerbil.js:65-69 | one queued record per entry, in order, with the entry's key as name and its value as function |
| RunnerSpec.StripHooksKeepsNonHooks | lib/gerbil.js:59-64 | deleting the four hooks one after another leaves exactly the non-reserved entries, in their original order |
| RunnerSpec.NonHooksIdempotent | lib/gerbil.js:59-64 | a mapping with its hooks removed has nothing more to remove |
| RunnerSpec.LookupRemoved | lib/gerbil.js:23-24 | after `delete tests[k]`, `tests[k]` is missing |
| RunnerSpec.LookupAfterRemove | lib/gerbil.js:23-24 | after `delete tests[k]`, every other key reads as before |
| RunnerSpec.HooksSurviveExtraction | lib/gerbil.js:59-62 | each of the four sequential `extract_test` calls sees the hook as it was in the original mapping |
| RunnerSpec.Execute | lib/gerbil.js:28-45 | exactly one of `success` and `failures` grows by one; the test counts as a success exactly when it does not raise, as a failure exactly when it raises, and an exception never escapes |
| RunnerSpec.ExecuteLog | lib/gerbil.js:33-43 | the log records the call and then its `ok` or `fail` line; the summary is logged once, right after, exactly when every counted test has finished; no hook is called |
| RunnerSpec.Step | lib/gerbil.js:80-82 | one loop iteration leaves nothing in its own remaining queue (a definition: its behaviour is stated by `RunnerSpec.StepLog`) |
| RunnerSpec.StepLog | lib/gerbil.js:80-82 | an iteration aborts exactly when `before` or `after` raises on this iteration's call; the test runs exactly when `before` returns; `before` is called once, and `after` once exactly when the test ran |
| RunnerSpec.Drain | lib/gerbil.js:79-83 | the `while` loop over the pending tests, numbering the hooks' calls from a given call (a definition: its behaviour is stated by the `Drain…` lemmas below) |
| RunnerSpec.DrainRunsEveryTest | lib/gerbil.js:79-83 | when `before` and `after` return on every call the loop makes, it empties the queue, runs every test once in queue order, adds the passing tests to `success` and the rest to `failures`, and calls each of the two hooks once per test |
| RunnerSpec.DrainSummarizesOnce | lib/gerbil.js:38-43 | when `before` and `after` return on every call the loop makes and `count` matches the tests to run, the summary is logged exactly once when there is a test and never otherwise |
| RunnerSpec.SummaryAfterLastTest | lib/gerbil.js:38-43 | when `before` and `after` return on every call the loop makes, the summary is logged inside the last test's `execute`, before its `after` hook |
| RunnerSpec.DrainStopsAtRaisingHook | lib/gerbil.js:79-83 | an aborted loop was aborted by `before` or `after`, after pulling at least one test, and leaves the rest of the queue untouched |
| RunnerSpec.DrainAbortsIffHookRaises | lib/gerbil.js:79-83 | the loop aborts exactly when `before` or `after` raises on one of the calls made for the pending tests, one call of each per test |
| RunnerSpec.DrainAbortNamesRaisingCall | lib/gerbil.js:79-83 | the hook an abort names raised that error on the call made for the test pulled last, and both hooks returned on the calls made for every earlier test |
| RunnerSpec.DrainRunsOnlyPulledTests | lib/gerbil.js:79-83 | on an abort, exactly the tests pulled before the raising hook ran, with the current test included when `after` raised |
| RunnerSpec.DrainCountsTestsRun | lib/gerbil.js:79-83 | whether or not a hook aborts the loop, `success` and `failures` together grow by exactly the number of tests it invoked |
| RunnerSpec.DrainSummarizesWhenAllCounted | lib/gerbil.js:38-43 | when `count` is the number of tests still to finish, the loop logs the summary once exactly when there was a test and every test was counted, and never otherwise, whether or not it aborts |
| RunnerSpec.DrainCallsNoSetupOrCleanup | lib/gerbil.js:79-83 | the loop never calls `setup` or `cleanup` |
| RunnerSpec.Consume | lib/gerbil.js:74-85 | `setup`, the loop from the first hook call, then `cleanup` (a definition: its behaviour is stated by the `Consume…` lemmas below) |
| RunnerSpec.ConsumeCompletes | lib/gerbil.js:74-85 | when no hook raises on a call it makes, `consume` completes with an empty queue, runs every queued test in order, and counts each as success or failure by its outcome |
| RunnerSpec.ConsumeSetupFirstCleanupLast | lib/gerbil.js:78-84 | when no hook raises on a call it makes, `setup` is the first call and `cleanup` the last |
| RunnerSpec.ConsumeCallsHooks | lib/gerbil.js:74-85 | when no hook raises on a call it makes, `setup` and `cleanup` are called once each, and `before` and `after` once per test |
| RunnerSpec.ConsumeSummarizesOnce | lib/gerbil.js:38-43 | when no hook raises on a call it makes and `count` matches, every test is counted and the summary is logged exactly once when there is a test and never otherwise |
| RunnerSpec.ConsumeAbortsIffHookRaises | lib/gerbil.js:78-84 | `consume` aborts exactly when a hook raises on a call it makes: `setup` or `cleanup` on their single call, or `before` or `after` on one of their calls, one per queued test |
| RunnerSpec.ConsumeStopsAtRaisingHook | lib/gerbil.js:78-84 | an abort before `cleanup` never calls `cleanup`; it leaves exactly the unpulled suffix of the queue; only the tests pulled before the raising hook ran |
| RunnerSpec.ConsumeCountsTestsRun | lib/gerbil.js:74-85 | whether or not a hook aborts `consume`, `success` and `failures` together grow by exactly the number of tests it invoked |
| RunnerSpec.ConsumeSummarizesWhenAllCounted | lib/gerbil.js:38-43 | when `count` is the number of tests still to finish, `consume` logs the summary once exactly when there was a test and every test was counted, and never otherwise, whether or not a hook aborts it |
| RunnerSpec.AfterRaisingStillSummarizes | lib/gerbil.js:78-84 | with one queued test and an `after` that raises on its first call, `consume` aborts with `after`'s error, yet the test is counted and the summary is logged once |
| RunnerSpec.BeforeRaisesOnSecondCall | lib/gerbil.js:78-84 | with three queued tests and a `before` that raises on its second call, the first test runs and is counted, the second is pulled but never runs, the third stays queued, and `cleanup` is never called |
| RunnerSpec.ScenarioRun | lib/gerbil.js:173-177 | the banner, then `consume` over the mapping's hooks and its non-reserved entries, with `count` the number of those entries (a definition: its behaviour is stated by `RunnerSpec.ScenarioCompletes` and `Runner.Scenario`) |
| RunnerSpec.ScenarioCompletes | lib/gerbil.js:173-177 | when no hook raises on a call it makes, a scenario runs every non-reserved entry once in order, counts each by its outcome, and logs the summary exactly once when there is a test and never otherwise |

## Left out

- Console output is not modelled: the message texts, the colour codes of
  `pretty_console`, the choice of logger and the `IS_NODE` host detection.
  The log is modelled as a sequence of events.
- Runner.Gerbil.SetTimeout: only the accumulated `timeout` is modelled. The
  timer, and the later call of `fn` with the runner as `this`, are not.
- RunnerSpec.Execute and every member about a run with at least one test
  assume a host whose `setTimeout` accepts a callback that is not a
  function, as browsers do. These members include RunnerSpec.Step,
  RunnerSpec.Drain, RunnerSpec.Consume, RunnerSpec.ScenarioRun,
  RunnerSpec.DrainRunsEveryTest, RunnerSpec.DrainSummarizesOnce,
  RunnerSpec.SummaryAfterLastTest, RunnerSpec.DrainAbortsIffHookRaises,
  RunnerSpec.DrainSummarizesWhenAllCounted, RunnerSpec.ConsumeCompletes,
  RunnerSpec.ConsumeSetupFirstCleanupLast, RunnerSpec.ConsumeCallsHooks,
  RunnerSpec.ConsumeSummarizesOnce, RunnerSpec.ConsumeAbortsIffHookRaises,
  RunnerSpec.ConsumeSummarizesWhenAllCounted,
  RunnerSpec.AfterRaisingStillSummarizes, RunnerSpec.ScenarioCompletes,
  Runner.Gerbil.Execute, Runner.Gerbil.Step, Runner.Gerbil.DrainQueue,
  Runner.Gerbil.Consume and Runner.Scenario. The summary's
  `function () { this.summary(); }.apply(context)` runs `summary` at once,
  inside `execute`, and yields `undefined`, which becomes the callback of
  the `setTimeout` call. Recent Node.js versions throw a TypeError for it.
  That throw comes from the `finally` block of `execute`, right after the
  summary is logged, so the last test's `after` and `cleanup` never run and
  `scenario` throws. The model does not capture this.
- `Gerbil.Error` builds a stack or message string. Only the kind of
  failure (`Assertions.Failure`) is modelled, not its text.
- The `time: new Date().getTime()` field of a queued record is not
  modelled: nothing reads it.
- Runner.Gerbil.AssertEqual: arrays are compared element by element with
  structural equality, not with JavaScript's loose `!=`. As a result:
  - two distinct nested arrays with equal elements compare equal here,
    while JavaScript compares them by reference;
  - values of different kinds never compare equal (no `1 == "1"` coercion).
- Assertions.CompareByConstructor: has the same structural equality as
  `Runner.Gerbil.AssertEqual`, for the same reason.
- Numbers are mathematical integers: floating point, `NaN` and `Infinity`
  are not modelled.
- Runner.Scenario: takes the tests mapping by value. `scenario` passes the
  caller's own object, so in JavaScript the caller sees the four hook keys
  deleted from it afterwards. The model does not capture that aliasing.
- The global `current_scenario`, which `scenario` assigns, is not modelled.
  `Runner.Scenario` returns the final counters instead.
- User callbacks have a scripted outcome per call and do nothing else.
  Hooks and tests cannot call the assertion helpers or `set_timeout` on the
  runner. Calls are numbered per hook field, so one function object used
  as two hooks, or as a hook and a test, does not share its call numbering
  the way a JavaScript closure shares its state. The shared `scope`
  object passed to them is not modelled. The assertion helpers are modelled
  as separate methods of `Runner.Gerbil`.
- The tests mapping is modelled as the sequence of its entries in
  `for ... in` enumeration order. JavaScript orders integer-like keys first;
  the model takes the order as given. JavaScript keys are unique. If a key
  repeats, `Lookup` reads the first entry and `Remove` deletes every entry.
- Runner.Gerbil.constructor: sets the four hooks to no-ops. JavaScript
  leaves them undefined until `enqueue` runs, and `scenario` always calls
  `enqueue` before `consume`.
- Calling a non-function raises a TypeError, with a fixed error text.
- `Runner.Gerbil.QueueTests`, `Runner.Gerbil.DrainQueue`,
  `Runner.Gerbil.Step` and `Runner.Prepare` are parts of `enqueue`,
  `consume` and `scenario`, factored out so that each loop has its own
  contract.
