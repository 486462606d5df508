# Item fetching for the WaniKani notifier: filters and the statistics engine

This project models the part of the WaniKani Android notifier that fetches items (radicals, kanji
and vocabulary) in the background and hands them to whoever displays them.

- **LevelFilter** shows the items of one level. It starts one asynchronous task per level.
  - A registry (`pending`) holds every task that has not completed, attached or not. A user who
    leaves a level and comes back before its task completes is attached to the same task again.
    That task then replays everything it has collected.
  - The task publishes its items in four steps:
    1. the radicals that have a character, as one batch;
    2. each radical without a character, singly, after its image has been loaded (a `"?"`
       placeholder replaces the missing character when the image fails);
    3. the kanji;
    4. the vocabulary.
  - A failed fetch publishes nothing. A failed image load still publishes its radical, with the
    placeholder. Either way the later steps still run, and the final result is `false`.
- **NoFilter** shows every item. It has a single task pointer. Its task fetches the same things,
  but it publishes the glyph-less radicals last, after the vocabulary.
- **NetworkEngine** is the statistics demand queue. Charts ask for sets of item kinds.
  - Requests are served one at a time, oldest first.
  - Before a request is served, the kinds already loaded by an earlier successful job are removed
    from it.
  - The job looks up the user's level and opens a session with every chart that accepts one. It
    then fetches the remaining kinds, vocabulary in windows of 50 levels, and feeds each result to
    every session.
  - A successful job adds its kinds to the cache. `flush` empties the cache.

How things are modelled:

- **Consumer calls.** The calls a filter makes on its consumer (`Filter.Callback`) are appended to
  a `trace` of `Callback.Event` values. `Callback.Displayed(trace)` is what the consumer shows:
  the items added since the last `clearData`.
  - The main invariant of both filters: while a task is attached, the consumer shows exactly what
    that task has collected.
- **Connection results.** What the connection returns (`FilterSteps.Catalog`,
  `NetworkEngine.Remote`) and whether each radical image loads (`loadImage`) are parameters. A
  `None` stands for a call that threw `IOException`.
- **Chart sessions.** Whether a chart's `startUpdate` returns a session is the `accepts` parameter.
  A session is named by the index of its chart.
- **Asynchronous tasks.** Each AsyncTask is a class:
  - `DoInBackground` returns the batches it hands to `publishProgress`, or, for the engine, the
    calls it makes, in order.
  - `OnProgressUpdate` and `OnPostExecute` are the framework's callbacks on the UI thread.
- **Specifications.** Each background method is proved equal to a reference function:
  `LevelFilter.LevelBatches`, `NoFilter.NoBatches` or `NetworkEngine.Job`. The lemmas below are
  stated about those functions.

## Model

LevelFilter.java, NoFilter.java and NetworkEngine.java are under `src/com/wanikani/androidnotifier/`
(NetworkEngine.java in its `stats/` sub-directory).

| member | source | states |
|---|---|---|
| LevelFilter.Task.constructor | src/com/wanikani/androidnotifier/LevelFilter.java:69-76 | a new task belongs to its filter and level, has collected nothing and is not finished |
| LevelFilter.Task.DoInBackground | src/com/wanikani/androidnotifier/LevelFilter.java:84-137 | publishes exactly `LevelBatches`: one batch of the radicals with a character, then one singleton per glyph-less radical (a placeholder when its image fails), then kanji, then vocabulary; a failed fetch publishes nothing and the later steps still run; the result is true iff every fetch and every image load succeeded |
| LevelFilter.Task.OnProgressUpdate | src/com/wanikani/androidnotifier/LevelFilter.java:157-161 | the batch is appended to the task's collected items and forwarded to the consumer iff this task is the attached one; the filter invariant is kept |
| LevelFilter.Task.OnPostExecute | src/com/wanikani/androidnotifier/LevelFilter.java:168-171 | the completing task was the one registered under its level; the level leaves the registry; the consumer is told the load ended (result, then level not loading) iff this task is attached, otherwise it is not touched |
| LevelFilter.Task.Reissue | src/com/wanikani/androidnotifier/LevelFilter.java:180-183 | everything collected is republished as one batch iff this task is attached |
| LevelFilter.LevelFilter.constructor | src/com/wanikani/androidnotifier/LevelFilter.java:204-209 | an empty registry, no attached task, and the invariant holds |
| LevelFilter.LevelFilter.Select | src/com/wanikani/androidnotifier/LevelFilter.java:221-241 | afterwards the registered task of the level is attached and the consumer shows what it has collected; a registered task is reused (no new task, registry unchanged) and replayed after enable-sorting, clear and loading; otherwise a fresh empty task is started and registered under the level |
| LevelFilter.LevelFilter.StartTask | src/com/wanikani/androidnotifier/LevelFilter.java:228-234 | clears the consumer, marks the level loading, starts one fresh task and registers it under the level; nothing else in the registry changes |
| LevelFilter.LevelFilter.RejoinTask | src/com/wanikani/androidnotifier/LevelFilter.java:235-240 | attaches the task registered under the level and appends clear, loading and a replay of all its items to the trace |
| LevelFilter.LevelFilter.Update | src/com/wanikani/androidnotifier/LevelFilter.java:248-252 | a batch reaches the consumer iff it comes from the attached task |
| LevelFilter.LevelFilter.Done | src/com/wanikani/androidnotifier/LevelFilter.java:261-269 | the level always leaves the registry; only the attached task ends the load on the consumer |
| LevelFilter.LevelFilter.StopTask | src/com/wanikani/androidnotifier/LevelFilter.java:276-283 | detaches without cancelling (the registry keeps the task); the result says whether a task was attached |
| LevelFilter.LevelFilter.Flush | src/com/wanikani/androidnotifier/LevelFilter.java:289-292 | changes nothing |
| LevelFilter.LevelTaskShowsEverything | src/com/wanikani/androidnotifier/LevelFilter.java:84-137 | the published batches hold every fetched item exactly once (as a multiset), radicals in their shown form |
| LevelFilter.LeaveAndReturn | src/com/wanikani/androidnotifier/LevelFilter.java:221-241 | select, stopTask, select on the same level starts at most one task and ends attached to the registered task, with the consumer showing all it collected |
| FilterSteps.SplitRadicals | src/com/wanikani/androidnotifier/LevelFilter.java:97-104 | the in-place removal loop leaves exactly the radicals with a character, in order, and moves exactly the others, in order, to the image list |
| FilterSteps.SplitParts | src/com/wanikani/androidnotifier/LevelFilter.java:97-104 | every radical kept has a character and every radical moved has none |
| FilterSteps.SplitAppend | src/com/wanikani/androidnotifier/LevelFilter.java:97-104 | the split distributes over concatenation |
| FilterSteps.SplitStep | src/com/wanikani/androidnotifier/LevelFilter.java:97-104 | looking at one more radical adds it to exactly one of the two parts |
| FilterSteps.SplitIsPermutation | src/com/wanikani/androidnotifier/LevelFilter.java:97-104 | the two parts together are a permutation of the fetched radicals |
| FilterSteps.LoadImages | src/com/wanikani/androidnotifier/LevelFilter.java:110-118 | one singleton batch per glyph-less radical, in order, each resolved by its image load; the result is true iff every image loaded |
| FilterSteps.ImageBatchesAt | src/com/wanikani/androidnotifier/LevelFilter.java:110-118 | batch i is exactly radical i, with the placeholder character iff its image failed |
| FilterSteps.ImageBatchesFlatten | src/com/wanikani/androidnotifier/LevelFilter.java:110-118 | the image batches laid end to end are the resolved glyph-less radicals |
| FilterSteps.ShownRadicalsSplit | src/com/wanikani/androidnotifier/LevelFilter.java:97-118 | the shown radicals are, as a multiset, the kept radicals plus the resolved moved ones |
| FilterSteps.RadicalsShownOnce | src/com/wanikani/androidnotifier/LevelFilter.java:92-118 | the radical batch and the image batches together show each fetched radical exactly once |
| Items.FlattenAppend | src/com/wanikani/androidnotifier/LevelFilter.java:84-137 | the items of two batch lists laid end to end are the items of each in turn |
| Callback.DisplayedStep | src/com/wanikani/androidnotifier/LevelFilter.java:221-241 | a clearData empties what the consumer shows, an addData appends its items, any other call leaves it unchanged |
| Callback.DisplayedSilent | src/com/wanikani/androidnotifier/LevelFilter.java:261-269 | calls that neither clear nor add leave what the consumer shows unchanged |
| NoFilter.Task.constructor | src/com/wanikani/androidnotifier/NoFilter.java:57-63 | a new task belongs to its filter, has collected nothing and is not finished |
| NoFilter.Task.DoInBackground | src/com/wanikani/androidnotifier/NoFilter.java:71-126 | publishes exactly `NoBatches`: the radicals with a character, the kanji, the vocabulary, then one singleton per glyph-less radical; the result is true iff every fetch and every image load succeeded |
| NoFilter.Task.OnProgressUpdate | src/com/wanikani/androidnotifier/NoFilter.java:146-150 | the batch is appended to the task's items and forwarded iff this task is attached; the invariant is kept |
| NoFilter.Task.OnPostExecute | src/com/wanikani/androidnotifier/NoFilter.java:157-160 | the attached task ends the load and is detached; any other task changes nothing |
| NoFilter.Task.Reissue | src/com/wanikani/androidnotifier/NoFilter.java:169-172 | everything collected is republished iff this task is attached |
| NoFilter.NoFilter.constructor | src/com/wanikani/androidnotifier/NoFilter.java:185-188 | no task, an empty trace, and the invariant holds |
| NoFilter.NoFilter.Select | src/com/wanikani/androidnotifier/NoFilter.java:199-214 | afterwards a running task is attached and the consumer shows what it collected; an existing task is reused and replayed, otherwise a fresh one is started |
| NoFilter.NoFilter.RejoinTask | src/com/wanikani/androidnotifier/NoFilter.java:203-206 | clears the consumer, marks it loading and replays all the current task's items |
| NoFilter.NoFilter.StartTask | src/com/wanikani/androidnotifier/NoFilter.java:207-213 | clears the consumer, marks it loading and starts one fresh empty task |
| NoFilter.NoFilter.Update | src/com/wanikani/androidnotifier/NoFilter.java:221-225 | a batch reaches the consumer iff it comes from the attached task |
| NoFilter.NoFilter.Done | src/com/wanikani/androidnotifier/NoFilter.java:234-241 | only the attached task ends the load; it is then detached; otherwise nothing changes |
| NoFilter.NoFilter.StopTask | src/com/wanikani/androidnotifier/NoFilter.java:248-255 | detaches without cancelling; the result says whether a task was attached |
| NoFilter.NoFilter.Flush | src/com/wanikani/androidnotifier/NoFilter.java:258-261 | changes nothing |
| NoFilter.NoTaskShowsEverything | src/com/wanikani/androidnotifier/NoFilter.java:71-126 | the published batches hold every fetched item exactly once, radicals in their shown form |
| NoFilter.RadicalPartShown | src/com/wanikani/androidnotifier/NoFilter.java:82-95 | the radical batch and the image batches hold each fetched radical once, in its shown form |
| NoFilter.MovedPartKeepsMultiset | src/com/wanikani/androidnotifier/NoFilter.java:113-123 | publishing the image batches after kanji and vocabulary rather than before changes no item's count |
| NoFilter.SameItemsAsLevelFilter | src/com/wanikani/androidnotifier/NoFilter.java:71-126 | for the same fetch results both filters publish the same items, only in a different order |
| NoFilter.StopThenSelect | src/com/wanikani/androidnotifier/NoFilter.java:248-255 | after stopTask, select starts a fresh, empty task instead of rejoining the old one |
| NetworkEngine.PendingTask.constructor | src/com/wanikani/androidnotifier/stats/NetworkEngine.java:192-196 | a request holds the kinds asked for |
| NetworkEngine.PendingTask.Clear | src/com/wanikani/androidnotifier/stats/NetworkEngine.java:198-204 | removes every given kind, and no other, from the request; answers whether any kind is left |
| NetworkEngine.Task.constructor | src/com/wanikani/androidnotifier/stats/NetworkEngine.java:79-85 | a job serves one request of one engine and has no sessions yet |
| NetworkEngine.Task.DoInBackground | src/com/wanikani/androidnotifier/stats/NetworkEngine.java:93-164 | the result, the calls made in order and the sessions collected are exactly `Job`: nothing for an empty request; otherwise level lookup (1 on failure), startUpdate on every chart, false on a failed lookup, then the progress values and fetches |
| NetworkEngine.Task.OnPostExecute | src/com/wanikani/androidnotifier/stats/NetworkEngine.java:177-183 | every session is told the result, in order; a successful job adds its kinds to the cache; the head leaves the queue and the next request, reduced by the cache, gets a fresh job; the requests behind it keep their kinds |
| NetworkEngine.StartCharts | src/com/wanikani/androidnotifier/stats/NetworkEngine.java:113-117 | calls startUpdate on every chart in order and keeps the sessions returned, in chart order |
| NetworkEngine.Broadcast | src/com/wanikani/androidnotifier/stats/NetworkEngine.java:127-128 | delivers the message to every session, in order, once each |
| NetworkEngine.FetchRadicals | src/com/wanikani/androidnotifier/stats/NetworkEngine.java:124-132 | radicals are fetched and broadcast iff wanted; a failed call ends the job with false |
| NetworkEngine.FetchKanji | src/com/wanikani/androidnotifier/stats/NetworkEngine.java:134-142 | kanji are fetched and broadcast iff wanted; a failed call ends the job with false |
| NetworkEngine.FetchKinds | src/com/wanikani/androidnotifier/stats/NetworkEngine.java:124-161 | radicals, kanji, the second progress value, then the vocabulary windows; the first failure stops everything after it |
| NetworkEngine.FillBunch | src/com/wanikani/androidnotifier/stats/NetworkEngine.java:149-152 | the bunch holds the next window of consecutive levels, at most 50 and none past the user's level, and the loop index is moved just past it |
| NetworkEngine.FetchWindow | src/com/wanikani/androidnotifier/stats/NetworkEngine.java:149-156 | one turn of the vocabulary loop: fetch one window, broadcast it and publish progress, or stop with false when the call fails |
| NetworkEngine.FetchVocabulary | src/com/wanikani/androidnotifier/stats/NetworkEngine.java:146-161 | the loop's result and calls are exactly `VocabFrom(1, …)` |
| NetworkEngine.NetworkEngine.constructor | src/com/wanikani/androidnotifier/stats/NetworkEngine.java:216-222 | an empty queue, an empty cache, no job running |
| NetworkEngine.NetworkEngine.Request | src/com/wanikani/androidnotifier/stats/NetworkEngine.java:224-236 | appends a fresh request to the queue; a job starts, for the kinds not cached, iff the queue was empty; the running job is otherwise untouched |
| NetworkEngine.NetworkEngine.Completed | src/com/wanikani/androidnotifier/stats/NetworkEngine.java:238-245 | a success adds the job's reduced kinds to the cache and a failure adds none; the head is popped; the next request, reduced by the cache, gets a fresh job, or none runs; the requests behind it keep their kinds |
| NetworkEngine.NetworkEngine.RunQueue | src/com/wanikani/androidnotifier/stats/NetworkEngine.java:247-256 | removes the cached kinds from the head, and from no other request, and starts exactly one job for it; an empty queue starts nothing |
| NetworkEngine.NetworkEngine.Flush | src/com/wanikani/androidnotifier/stats/NetworkEngine.java:286-289 | empties the cache only; the queue invariant is kept |
| NetworkEngine.WindowsCover | src/com/wanikani/androidnotifier/stats/NetworkEngine.java:148-157 | the windows laid end to end are exactly levels i .. levels: no gap, no overlap, in order |
| NetworkEngine.WindowsCount | src/com/wanikani/androidnotifier/stats/NetworkEngine.java:148-157 | there are ⌈(levels − i + 1)/50⌉ windows |
| NetworkEngine.WindowsShape | src/com/wanikani/androidnotifier/stats/NetworkEngine.java:148-157 | window k covers levels i + 50k up to the smaller of i + 50(k+1) − 1 and the user's level |
| NetworkEngine.WindowsOf120 | src/com/wanikani/androidnotifier/stats/NetworkEngine.java:148-157 | at level 120, the calls ask for 1–50, 51–100 and 101–120 |
| NetworkEngine.VocabOk | src/com/wanikani/androidnotifier/stats/NetworkEngine.java:146-161 | the vocabulary loop succeeds iff every window's call succeeds |
| NetworkEngine.VocabRequests | src/com/wanikani/androidnotifier/stats/NetworkEngine.java:148-157 | on success the windows requested are all of them, in order; on failure they are a non-empty prefix of them in which the last window, and only the last, failed |
| NetworkEngine.JobOk | src/com/wanikani/androidnotifier/stats/NetworkEngine.java:93-164 | the job succeeds iff the request is empty or, after a successful lookup, every call for a wanted kind (each vocabulary window included) succeeded |
| NetworkEngine.CachedRequestIsFree | src/com/wanikani/androidnotifier/stats/NetworkEngine.java:102-103 | a request whose kinds are all cached makes no call at all and succeeds |
| NetworkEngine.FailedLookup | src/com/wanikani/androidnotifier/stats/NetworkEngine.java:106-120 | a failed lookup still opens sessions with 1 level on every chart, fetches nothing and fails |
| NetworkEngine.RadicalFailureStops | src/com/wanikani/androidnotifier/stats/NetworkEngine.java:124-132 | a failed radical call is the job's last call; nothing is delivered and no kanji or vocabulary is fetched |
| NetworkEngine.KanjiFailureStops | src/com/wanikani/androidnotifier/stats/NetworkEngine.java:134-142 | a failed kanji call is the job's last call; no vocabulary is fetched |
| NetworkEngine.SessionsAre | src/com/wanikani/androidnotifier/stats/NetworkEngine.java:113-117 | the sessions are exactly the charts that accepted the update, in increasing chart order |
| NetworkEngine.VocabFeedsSessions | src/com/wanikani/androidnotifier/stats/NetworkEngine.java:154-155 | the vocabulary loop delivers only to the job's sessions |
| NetworkEngine.JobFeedsSessions | src/com/wanikani/androidnotifier/stats/NetworkEngine.java:113-161 | the whole job delivers only to sessions that it collected from startUpdate |
| NetworkEngine.VocabProgressRises | src/com/wanikani/androidnotifier/stats/NetworkEngine.java:156 | the corrected vocabulary progress never falls below the progress value before the loop and never decreases |
| NetworkEngine.VocabProgressFinishes | src/com/wanikani/androidnotifier/stats/NetworkEngine.java:156 | the corrected progress reaches 100 after the last window |
| NetworkEngine.ProgressAsWrittenGoesBack | src/com/wanikani/androidnotifier/stats/NetworkEngine.java:144-156 | with the source's formula and one level, progress goes from 66 back to 33 |
| NetworkEngine.ProgressAsWrittenNeverFinishes | src/com/wanikani/androidnotifier/stats/NetworkEngine.java:156 | with the source's formula the last progress value is always below 100 |

## Left out

- Threads and the AsyncTask framework are not modelled. Each callback is a method call made in
  sequence.
  - The framework's promises become `requires` clauses: progress updates come before
    `onPostExecute`, and `onPostExecute` runs once (`!Finished`).
  - `DoInBackground` returns the batches or calls in order. The framework's later delivery of each
    batch to `OnProgressUpdate` is not modelled.
- The remote calls (`getRadicals`, `getKanji`, `getVocabulary`, `getUserInformation`) are
  parameters, not I/O. So are the radical image loads (`loadRadicalImage`) and the charts'
  `startUpdate` answers.
  - The `Connection.Meter` is dropped.
  - Of a radical only its name and optional character are kept. Of kanji and vocabulary only
    their characters are kept. The image bytes themselves are not modelled.
- NetworkEngine's `onProgressUpdate` does nothing, so it is not a member. The progress values
  appear as `Progress` entries in the job's log.
- NetworkEngine's `add`, `bind`, `unbind` and `scrolling` are not modelled. The engine has a fixed
  number of charts, numbered from 0.
- `execute()` in `runQueue` is represented by the ghost field `running`, which records which job
  serves the head of the queue.
- NetworkEngine.PendingTask.Clear: the source stores the caller's EnumSet and changes it in place.
  The model keeps a set value, so the caller does not see the change.
- NetworkEngine.Task.DoInBackground: the user's level is a natural number. A negative level from
  the service is not modelled.
- NetworkEngine.Task.DoInBackground: after each vocabulary window, the model publishes the
  corrected progress `VocabProgress`, not the source's expression `VocabProgressAsWritten` (see
  Findings).
- `hasSRSLevelInfo` of both filters is a constant (`HasSRSLevelInfo`).
- The `allItems` argument of both filters' `done` is unused (the source keeps no cache of them).
- The program's own comments describe finished level tasks as staying available for a later
  `select`: `select` promises that data already available is pushed to the fragment at once
  (LevelFilter.java:213), and `done` says it stores the items into a cache (LevelFilter.java:256).
  - The code removes the level from `pending` on every completion (LevelFilter.java:263), and the
    model follows the code: `LevelFilter.LevelFilter.Done`.
  - LevelFilter's `done` does not clear `task` either, so a completed task can stay attached until
    the next `select` or `stopTask`. The model keeps that.

## Findings

| source | as written | input that shows it | evidently intended | confidence | as-written member | corrected member |
|---|---|---|---|---|---|---|
| src/com/wanikani/androidnotifier/stats/NetworkEngine.java:156 | progress after a vocabulary window is `100 * (i - 1) / (levels + 2)`, which leaves out the two units (radicals, kanji) already reported at line 144 | levels = 1: line 144 publishes 66, then the window publishes 33; no value is ever 100 | `100 * (i - 1 + 2) / (levels + 2)`, so progress rises to 100 | medium, not executed | NetworkEngine.ProgressAsWrittenGoesBack | NetworkEngine.VocabProgressRises |
