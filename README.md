# FitNesse multiple-tests runner, modelled in Dafny

This project models the bookkeeping of FitNesse's `MultipleTestsRunner`, the
object that runs a suite of wiki test pages. It covers these steps:

- Group the pages by the test system each one needs, leaving out suite set-up
  and tear-down pages.
- Let the set-up/tear-down surrounder splice those pages back into each group.
- Announce the number of tests.
- Start one test system per group and submit the group's pages to it.
- Match the test system's output and completion callbacks to the pages it was
  sent, through a FIFO processing queue.
- Let the run be stopped at any time.

Files:

- `page_grouping.dfy` (module `PageGrouping`): the grouping, the surrounder
  step and the test count. These are methods with loops, checked against ghost
  specification functions. `Column` is an independent per-descriptor
  definition of the grouping. `TotalSize` is a sum over the map that does not
  depend on iteration order.
- `test_runner.dfy` (module `TestRunner`): the class `MultipleTestsRunner`.
  Its fields `processingQueue`, `currentTest`, `isStopped`, `stopId` and the
  group's existence are updated by its methods. Every call on a collaborator
  becomes one entry in an ordered `events` log:
  - the run-tracking registry;
  - the results listener;
  - the test-system group;
  - the test systems it starts.

  A ghost field `stoppedAt` records the length of the log when the run was
  first stopped. The object invariant `Valid()` says:
  - the group is killed at most once;
  - it is killed only while the stop flag is set, and never before position
    `stoppedAt` of the log;
  - from position `stoppedAt` on, the log holds no start request and no bye.

  Together these give `NothingStartsAfterKill`: no test system is started or
  told bye at or after the kill. `StopIsFinal` says that a stop is never
  undone and `stoppedAt` never moves once set. Every method that can stop the
  run promises it.

  A ghost field `plannedGroups` holds the surrounded grouping of the pages
  under the current debug flag (`Planned()`). The constructor and `SetDebug`
  keep it up to date, and the run's contracts are stated in terms of it.
- `runner_scenarios.dfy` (module `RunnerScenarios`): small concrete runs.
  The drain lemmas are proved by unfolding `Handle` and `DrainFrom` one reply
  at a time. The scenario methods drive a runner object and are proved from
  its methods' contracts and those lemmas.

How collaborators and identity are represented:

- The external policies are a `Policy` value of three uninterpreted
  functions:
  - whether a page is a suite set-up or tear-down page;
  - the descriptor of the test system a page needs, given the remote-debug
    setting;
  - the surrounder.
- The surrounder changes a list in place. Here it maps a list to its new
  contents.
- Java compares test pages by object identity. Here a `TestPage` is a value:
  the page plus the position of its input page as `serial`. Two pages from
  different input positions are therefore never equal. Pages that the
  surrounder adds are values too, so two equal entries it returns count as
  one page (see "Left out").
- Test systems run concurrently with the runner. Here the callbacks that
  arrive while the runner waits for a group are a sequence `replies`. They are
  applied in order, one atomic method each, until the wait loop's exit
  condition holds. If `replies` runs out first, the model returns
  `blocked == true`, where the source keeps polling.
- `startOf` gives the group's answer to each start request.

Behaviours of the source that the model keeps and proves:

- **The announced count includes the surrounder's pages.** The count is taken
  on the map after the surrounder has run (lines 82-83 and 129-131). So it
  equals the number of non-set-up/tear-down pages only when the surrounder
  adds nothing. This model follows the code.
- **A page that completes with no output is never announced as started.**
  Start detection is lazy: a page counts as started when an output chunk
  arrives while it is at the head of the queue. So a silent page's completion
  is reported under the previous page's test clock (`currentTestTime`), right
  after the previous page's own completion. If it is the very first page,
  there is no test clock yet, so `testComplete` fails with a
  NullPointerException after removing the head (`FirstPageCompletesSilently`,
  `SilentPageScenario`).
- **Stopping before the group exists fails.** `stop()` sets the flag. The stop
  id exists only once the group has been created (lines 76-77), so there is
  nothing to deregister. It then fails on the missing test-system group.
- **A run that is already stopped never starts a test system.** Running such a
  runner stays stopped, keeps its stop point, and only appends calls that are
  neither a start request nor a bye.

## Model

| member | source | states |
|---|---|---|
| `PageGrouping.GetOrMakeListWithinMap` | src/fitnesse/testrunner/MultipleTestsRunner.java:150-159 | a fresh empty list is made and stored only for an absent key; an existing key's list is returned with the map unchanged; every other key keeps its list |
| `PageGrouping.AddPageToListWithinMap` | src/fitnesse/testrunner/MultipleTestsRunner.java:144-148 | the page is appended at the tail of its descriptor's list (created empty if missing); the keys grow by that descriptor only and every other list is unchanged |
| `PageGrouping.MapWithAllPagesButSuiteSetUpAndTearDown` | src/fitnesse/testrunner/MultipleTestsRunner.java:133-142 | the loop over the input pages builds exactly the map `Grouped` specifies, skipping suite set-up/tear-down pages |
| `PageGrouping.GroupedIsColumns` | src/fitnesse/testrunner/MultipleTestsRunner.java:133-159 | a descriptor is a key exactly when some non-set-up/tear-down page needs it, and its list is exactly those pages, in input order |
| `PageGrouping.ColumnShape` | src/fitnesse/testrunner/MultipleTestsRunner.java:136-148 | every entry of a descriptor's list is an input page that is not a set-up/tear-down page and needs that descriptor; positions strictly increase along the list |
| `PageGrouping.ColumnComplete` | src/fitnesse/testrunner/MultipleTestsRunner.java:136-140 | every page that is not a suite set-up/tear-down page lands in the list of its own descriptor |
| `PageGrouping.GroupedPlacement` | src/fitnesse/testrunner/MultipleTestsRunner.java:133-148 | after grouping, each non-set-up/tear-down page occurs exactly once, in its own descriptor's list; a set-up/tear-down page occurs in no list |
| `PageGrouping.GroupedKeepsOrder` | src/fitnesse/testrunner/MultipleTestsRunner.java:144-159 | every group is non-empty and keeps the input's relative order |
| `PageGrouping.AddSuiteSetUpAndTearDownToAllTestSystems` | src/fitnesse/testrunner/MultipleTestsRunner.java:161-168 | for an empty input the map is returned unchanged and the surrounder is never called; otherwise it is called once per group, in any order, and every group's list is replaced by its surrounded list |
| `PageGrouping.MakeMapOfPagesByTestSystem` | src/fitnesse/testrunner/MultipleTestsRunner.java:129-131 | the map to run is the grouping, surrounded unless the input is empty, with the same keys as the grouping |
| `PageGrouping.EmptyRunHasNoGroups` | src/fitnesse/testrunner/MultipleTestsRunner.java:161-163 | an empty page list yields an empty map |
| `PageGrouping.TotalSizeRemove` | src/fitnesse/testrunner/MultipleTestsRunner.java:172-174 | the sum of list sizes does not depend on the order the map yields its lists: removing any key subtracts exactly its list's size |
| `PageGrouping.CountTests` | src/fitnesse/testrunner/MultipleTestsRunner.java:171-174 | the counting loop, visiting the lists in any order, returns the sum of the sizes of all lists in the map |
| `PageGrouping.GroupedTotal` | src/fitnesse/testrunner/MultipleTestsRunner.java:133-148 | before the surrounder runs, the list sizes sum to the number of input pages that are not suite set-up/tear-down pages |
| `PageGrouping.AnnouncedCount` | src/fitnesse/testrunner/MultipleTestsRunner.java:161-175 | the announced count (taken after the surrounder) equals the number of non-set-up/tear-down pages when the surrounder adds nothing, and is at least that when it only adds |
| `TestRunner.MultipleTestsRunner.constructor` | src/fitnesse/testrunner/MultipleTestsRunner.java:38-48 | a new runner has an empty queue, no current test, no group, no stop id, is not stopped and has made no calls; its planned groups are the surrounded grouping of its pages without remote debug |
| `TestRunner.MultipleTestsRunner.SetDebug` | src/fitnesse/testrunner/MultipleTestsRunner.java:50-52 | sets the remote-debug flag that goes into every descriptor; the planned groups become the surrounded grouping under that flag |
| `TestRunner.MultipleTestsRunner.SetFastTest` | src/fitnesse/testrunner/MultipleTestsRunner.java:54-56 | sets the fast-test flag |
| `TestRunner.MultipleTestsRunner.Stop` | src/fitnesse/testrunner/MultipleTestsRunner.java:239-250 | always leaves the run stopped; a first stop marks the current end of the log as the stop point, a later stop keeps the earlier one; the log grows by exactly a deregistration when there is a stop id, then a kill only when the run was not already stopped and the group exists; the invariant is kept, so the group is killed at most once over the runner's life; fails with a null pointer exactly when a first stop finds no group |
| `TestRunner.MultipleTestsRunner.KillGroup` | src/fitnesse/testrunner/MultipleTestsRunner.java:247-249 | a stopped run whose group was not killed yet appends exactly one kill, and the invariant still holds |
| `TestRunner.MultipleTestsRunner.NothingStartsAfterKill` | src/fitnesse/testrunner/MultipleTestsRunner.java:92-111 | in any valid runner, no start request and no bye appear in the log at or after the group's kill |
| `TestRunner.MultipleTestsRunner.ErrorOccurred` | src/fitnesse/testrunner/MultipleTestsRunner.java:206-215 | reports the error to the listener, then stops the run; a failing stop is swallowed |
| `TestRunner.MultipleTestsRunner.TestSystemStopped` | src/fitnesse/testrunner/MultipleTestsRunner.java:217-223 | the stopped test system's log is collected; an end with a cause reports an error and stops the run, an end without one changes nothing else |
| `TestRunner.MultipleTestsRunner.AddToProcessingQueue` | src/fitnesse/testrunner/MultipleTestsRunner.java:120-122 | the page is appended at the tail of the queue |
| `TestRunner.MultipleTestsRunner.StartingNewTest` | src/fitnesse/testrunner/MultipleTestsRunner.java:194-198 | the page becomes the current test and exactly one start is reported for it |
| `TestRunner.MultipleTestsRunner.TestOutputChunk` | src/fitnesse/testrunner/MultipleTestsRunner.java:184-192 | when the queue's head is not the current test it becomes the current test and one start is reported before the chunk; otherwise the current test is unchanged; the queue never changes and the chunk is forwarded exactly once |
| `TestRunner.MultipleTestsRunner.TestComplete` | src/fitnesse/testrunner/MultipleTestsRunner.java:200-204 | an empty queue fails with nothing changed; otherwise exactly the head is removed, the rest of the queue is kept, and the head is reported complete with the summary (failing, with no report, when no test has started yet) |
| `TestRunner.MultipleTestsRunner.ExecuteTestSystemPages` | src/fitnesse/testrunner/MultipleTestsRunner.java:113-118 | the queue becomes the old queue followed by the group's pages, and the pages were submitted in that same order |
| `TestRunner.MultipleTestsRunner.WaitForTestSystemToSendResults` | src/fitnesse/testrunner/MultipleTestsRunner.java:124-127 | the new callback state and the number of callbacks taken are exactly those of `DrainFrom`: each callback is delivered, in order, only while the queue is non-empty and the run not stopped; leaving early means that condition is false; a stopped run or empty queue takes none; no callback starts a test system or says bye |
| `TestRunner.MultipleTestsRunner.Deliver` | src/fitnesse/testrunner/MultipleTestsRunner.java:184-250 | one callback changes the queue, current test, stop flag, collected logs and call log exactly as `Handle` says; a stop is never undone |
| `TestRunner.DrainFrom` | src/fitnesse/testrunner/MultipleTestsRunner.java:124-127 | the polling loop takes replies in order; replies are left over only once the queue is empty or the run stopped |
| `TestRunner.DrainQueue` | src/fitnesse/testrunner/MultipleTestsRunner.java:200-204 | over the polling loop, each completion taken removes exactly the head of the queue: there are never more completions than queued pages, and the queue left is the old queue minus that many pages at its head |
| `TestRunner.DrainForwardsEveryChunk` | src/fitnesse/testrunner/MultipleTestsRunner.java:184-192 | over the polling loop, every chunk taken is forwarded to the listener exactly once |
| `TestRunner.ForwardedOfEmitted` | src/fitnesse/testrunner/MultipleTestsRunner.java:184-250 | one callback forwards one chunk when it is a chunk and none otherwise |
| `TestRunner.DrainKeepsLog` | src/fitnesse/testrunner/MultipleTestsRunner.java:124-127 | the polling loop only appends to the call log |
| `TestRunner.DrainEndsAtStop` | src/fitnesse/testrunner/MultipleTestsRunner.java:124-127 | a reply that stops the run (an external stop, or a test system ending with a cause) is the last one the polling loop takes |
| `TestRunner.MultipleTestsRunner.RunPagesOnStartedSystem` | src/fitnesse/testrunner/MultipleTestsRunner.java:100-104 | the group's pages are submitted first and in order; the callbacks that follow start no test system and say no bye; the method returns blocked exactly when the runner would keep waiting |
| `TestRunner.MultipleTestsRunner.StartTestSystemAndExecutePages` | src/fitnesse/testrunner/MultipleTestsRunner.java:92-111 | a stopped run starts nothing, submits nothing and sends no bye; otherwise exactly one start is requested, so the start count grows by exactly one, the pages are submitted only if the system started, and bye is sent exactly when a system was obtained, the wait finished and the run is still not stopped |
| `TestRunner.MultipleTestsRunner.UseTestSystem` | src/fitnesse/testrunner/MultipleTestsRunner.java:99-110 | a started system gets the group's pages first and in order; a system that failed to start gets no pages and, unless the run is stopped, only a bye; no test system is started; the bye is the last call and is sent only when the wait finished and the run is not stopped |
| `TestRunner.MultipleTestsRunner.AnnounceTotalTestsToRun` | src/fitnesse/testrunner/MultipleTestsRunner.java:170-177 | announces exactly the sum of the sizes of the lists in the map it is given |
| `TestRunner.MultipleTestsRunner.AllTestingComplete` | src/fitnesse/testrunner/MultipleTestsRunner.java:69-73 | reports the end of testing to the listener |
| `TestRunner.MultipleTestsRunner.RunGroups` | src/fitnesse/testrunner/MultipleTestsRunner.java:85-87 | groups run in any order, at most one test system started per group; a run that was already stopped stays stopped and only appends calls that start nothing and say no bye; the log only grows |
| `TestRunner.MultipleTestsRunner.OpenRun` | src/fitnesse/testrunner/MultipleTestsRunner.java:75-83 | the group exists and the stop id is set; the log grows by exactly the registration, the hand-over of the tracking id and the announcement of the planned groups' count; the map returned is the planned grouping; no test system is started |
| `TestRunner.MultipleTestsRunner.CloseRun` | src/fitnesse/testrunner/MultipleTestsRunner.java:89 | appends exactly the deregistration of the run, which starts nothing and says no bye |
| `TestRunner.MultipleTestsRunner.InternalExecuteTestPages` | src/fitnesse/testrunner/MultipleTestsRunner.java:75-90 | creates the group and registers the run, then tells the listener the stop id and the count of the planned (surrounded) grouping; starts at most one test system per planned group; a run that was already stopped stays stopped, keeps its stop point, and only appends calls that start nothing and say no bye; blocks only when there is a group; unless blocked, deregisters last |
| `TestRunner.MultipleTestsRunner.ExecuteTestPages` | src/fitnesse/testrunner/MultipleTestsRunner.java:58-67 | the run announces the count of the planned (surrounded) grouping as its third call, starts at most one test system per planned group; a run that was already stopped stays stopped, keeps its stop point, and only appends calls that start nothing and say no bye; unless blocked, it ends with deregistration followed by the completion report |
| `RunnerScenarios.StopTwice` | src/fitnesse/testrunner/MultipleTestsRunner.java:239-250 | two stops with a group in place both succeed; the log gains a deregistration, a kill only if the run was not already stopped, and a second deregistration, so the group is killed once at most |
| `RunnerScenarios.CorrelationDrain` | src/fitnesse/testrunner/MultipleTestsRunner.java:184-204 | the polling loop over two queued pages that each send output before completing takes all five replies; each page is reported started once, its chunks follow, and its completion comes next, in submission order |
| `RunnerScenarios.CorrelationScenario` | src/fitnesse/testrunner/MultipleTestsRunner.java:100-127 | the same run through the runner's own submission and wait loop yields exactly that call log |
| `RunnerScenarios.SilentDrain` | src/fitnesse/testrunner/MultipleTestsRunner.java:184-204 | after a page with output completes, a silent page's completion is reported right after it, with no start report of its own |
| `RunnerScenarios.FirstPageCompletesSilently` | src/fitnesse/testrunner/MultipleTestsRunner.java:200-204 | a first page completing without output fails on the missing test clock and is dropped from the queue with nothing logged for it |
| `RunnerScenarios.SilentPageScenario` | src/fitnesse/testrunner/MultipleTestsRunner.java:184-204 | after that, a page with output is announced and completes, and a later silent page gets no start report and its completion follows the previous completion; the wait takes all three replies |
| `RunnerScenarios.EmptyRunScenario` | src/fitnesse/testrunner/MultipleTestsRunner.java:75-90 | a run over no pages announces zero tests, starts no test system, and ends with deregistration and the completion report |

## Left out

- Concurrency is not modelled: the polling thread, the `Thread.sleep(50)`
  waiting and the volatile stop flag. Each callback is one atomic step, and
  callbacks arrive only while the runner waits for a group. The source can
  also deliver a callback, or a stop, while pages are still being submitted.
- Clocks (`TimeMeasurement`) and elapsed times are left out. The only clock
  fact kept is that there is no current-test clock before the first test has
  started, because `testComplete` fails on it.
- Process launching is left out (`startTestSystem`, `runTests`, `bye`,
  `kill`, `ClassPathBuilder`). These are events in the log, and the start
  result is the `startOf` parameter. The start event records the group's
  descriptor without the class path added at line 97.
- `setFastTest` only records the flag. Passing it to the test-system group
  (line 79) is not modelled.
- The internals of the surrounder and of the suite set-up/tear-down test are
  left out. They are uninterpreted functions in `Policy`.
- `getOrMakeListWithinMap` hands back a list object, and the caller then
  appends to it. The model passes lists by value instead.
- Exceptions thrown by collaborators (`IOException`,
  `InterruptedException`) are left out. So is the `catch` in
  `executeTestPages` that turns them into `errorOccurred`. The collaborators
  in this model do not fail. `ErrorOccurred` itself is modelled.
- Stack-trace printing is left out. So are the pure forwarding callbacks
  `testSystemStarted`, `testAssertionVerified` and `testExceptionOccurred`.
- `CompositeExecutionLog` keeps only the name of each test system whose log
  was added, not the log itself.
- A failure raised inside a callback is not passed back to the test system
  that made the callback (`Deliver` drops it). These failures are a
  `NoSuchElementException` on an empty queue and a `NullPointerException` on
  a missing clock or group.
- TestRunner.MultipleTestsRunner.InternalExecuteTestPages: states these
  things:
  - the first three calls;
  - a bound on test-system starts;
  - no starts when the run is already stopped;
  - the final deregistration;
  - for a run that was already stopped, that it only appends quiet calls.

  It does not state the whole log, because the order of the groups is
  unspecified.
- TestRunner.MultipleTestsRunner.RunGroups: bounds the starts rather than
  listing each group's calls, for the same reason.
- TestRunner.MultipleTestsRunner.ExecuteTestPages: states the same facts as
  `InternalExecuteTestPages`, plus the final completion report.
- Page identity is by value, not by object reference (the comparison at
  line 187). If the surrounder returns two equal entries next to each other
  (the same set-up page twice, say), the second one gets no start report in
  this model, where Java would report it unless it is the same object. The
  pages that come from the input always differ, because their positions
  differ.
- `src/fitnesse/updates/WikiImportPropertyFormatUpdateTest.java` is not part
  of this model. It tests an unrelated wiki-property migration.
