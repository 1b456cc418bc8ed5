# plot-runner-agent: the job lifecycle, modelled in Dafny

plot-runner-agent is a small HTTP service that drives one NextDraw pen
plotter. Clients submit plot jobs: an SVG sent as JSON, or a large file sent
in numbered chunks that the server reassembles. The jobs wait in a priority
queue. A background dispatcher hands them one at a time to a controller
that configures the driver, draws, and keeps run statistics. Beside this
run a project manager (multi-layer projects whose layers are uploaded one
by one), an older single-SVG project manager, an SVG manager, and a
configuration manager. The configuration manager validates and merges
settings.

This project models that core as Dafny modules, one per source file:

| module | file | form |
|---|---|---|
| `Queue` | `job_queue.py` | class `JobQueue` over a job map and an id list, with pure list/priority functions |
| `Controller` | `plotter_controller.py` | class `PlotterController`; the driver run is a pure function `Execute` over an oracle `DriverRun` |
| `Dispatch` | `app.py` | class `Server` holding the queue, the controller, the scratch directories and the upload folder |
| `Projects` | `project_manager.py` | class `ProjectManager`; each upload is a pure step function on a `Project` value |
| `ProjectsOld` | `project_manager_old.py` | the same shape, for the single-SVG manager |
| `SvgStore` | `svg_manager.py` | the same shape, for the SVG manager |
| `SvgLayers` | layer extraction shared by the two SVG managers | loops over the parsed `<g>` groups |
| `Config` | `config_manager.py` | recursive `Merge`, per-key validators, class `ConfigManager` |
| `ChunkStore` | the chunk scratch directory shared by all four chunked uploaders | `map<string, bytes>`, reassembly loops, split/reassemble round trip |

The supporting modules are `Wrappers` (Option/Result), `Ints` (clamp,
truncating division, the progress percentage), `Strings` (decimal
rendering of integers, and the literal grammars of Python's `int()` and
`float()` on strings), `Json` (the JSON-like values the service passes
around, floats as exact reals, with Python's truthiness and coercions), `Lists`
(remove-first, insert-at and filtering with their uniqueness lemmas) and
`Jobs` (the job record).

Every state-changing method is tied to a pure function of the old state,
and the lemmas are proved about that function. Examples:

- `AddJob` yields `InsertAt(queue, InsertPos(...), id)`, and `InsertKeepsSorted`/`InsertAfterTies` are proved about it.
- `UploadLayerChunked` sets `current` to `ChunkUpload(...)`, and the case lemmas are proved about that function.

Where behaviour depends on something outside the program, it becomes a
parameter:

- the driver's outcome (`DriverRun`, `Call<T>`);
- a write failure (`writeError`);
- the parsed SVG (`parsed`);
- the clock (`now`).

## Behaviour kept as the code has it

- `reorder_job` removes the job and inserts it at `max(0, min(new_position - 1, len(queue)))`, where `queue` is the list after removal (job_queue.py:366). That index can equal the new length, which appends. The resulting 1-based position is therefore `Clamp(1, |q|, new_position)` (`Queue.ReorderLands`). A bound of `len - 1` would instead put a job sent past the end just before the last entry. The model follows the code.
- `add_job` builds its record without `start_mm` (job_queue.py:82-97). A job taken from the queue therefore never carries a start position, so `Dispatch.Server.RunJob` passes none to the controller.
- `execute_job` catches every exception inside its own `try` (plotter_controller.py:206-214). The dispatcher's exception branch (app.py:517-522) can therefore not be reached, and the model has no such path.
- `process_jobs` with a busy controller sleeps and polls forever. The model reports that as `Stalled` and changes nothing.
- After one layer fails, a multi-layer project that was already `ready` stays `ready`. On error `uploaded_layers` is not recounted (project_manager.py:155-161, 238-244).
- A chunk count of 0 makes the progress division raise. The layer (or project) takes the error path with the division message (project_manager.py:190).
- Progress is not clamped: a chunk number at or above `total_chunks` reports more than 100.
- The reassembled file is named after the `filename` sent with the completing chunk.
- `svg_manager.upload_svg` clears the current SVG before writing (svg_manager.py:40-41). A failed write therefore leaves no SVG at all.
- `get_original_svg_file_name` reads a key that uploads never write (project_manager_old.py:284 against 110 and 177), so it always returns `None`.

## Model

| member | source | states |
|---|---|---|
| `Queue.InsertPos` | job_queue.py:102-112 | the insertion index lies after every entry of priority at least the new one and, when not at the end, before an entry of strictly lower priority |
| `Queue.InsertKeepsSorted` | job_queue.py:102-112 | inserting at that index keeps a list sorted non-increasing by priority sorted |
| `Queue.InsertAfterTies` | job_queue.py:102-112 | on a sorted list, an entry is before the insertion point exactly when its priority is at least the new one, so ties keep arrival order |
| `Queue.Priorities` | job_queue.py:105-106 | the priority list has one entry per queued id, a missing priority read as 1 |
| `Queue.PrioritiesInsert` | job_queue.py:102-112 | inserting an id into the queue inserts its priority at the same index of the priority list |
| `Queue.TierExample` | job_queue.py:102-112 | submitting A(1), B(5), C(1) in that order gives the queue [B, A, C] |
| `Queue.FirstQueuedFrom` | job_queue.py:127-137 | the index found is a queued job and no earlier index from the start point holds one; none found means none is queued |
| `Queue.FirstQueued` | job_queue.py:127-137 | the first id in list order whose job is queued, or none when no listed job is queued |
| `Queue.QueuedOnes` | job_queue.py:335-338 | an id is collected exactly when it is in the list and its job is queued |
| `Queue.QueuedOnesUnique` | job_queue.py:335-338 | collecting from a duplicate-free list gives a duplicate-free list |
| `Queue.CountsAddUp` | job_queue.py:265-273 | the five status counts add up to the number of jobs |
| `Queue.ListLength` | job_queue.py:272 | in a consistent queue the list length is the number of queued plus running jobs |
| `Queue.ReorderIndex` | job_queue.py:366 | the target index is at most the length after removal |
| `Queue.ReorderLands` | job_queue.py:362-367 | reordering keeps the list duplicate-free and a permutation, and the job lands at 1-based position `Clamp(1, len, new_position)` |
| `Queue.AddKeepsConsistent` | job_queue.py:100-112 | adding a fresh queued job at any index keeps the list holding exactly the queued and running jobs, without duplicates |
| `Queue.ReorderKeepsConsistent` | job_queue.py:351-371 | reordering keeps that invariant and the multiset of ids |
| `Queue.CancelAmong` | job_queue.py:340-343 | cancelling a set of jobs keeps the set of job ids |
| `Queue.ClearKeepsConsistent` | job_queue.py:329-346 | cancelling every queued job and dropping exactly those ids from the list keeps the invariant |
| `Queue.AddAsWritten` | job_queue.py:99-121 | in the source's order the record is always stored; the call raises exactly when the priority cannot be compared with an integer and the list is not empty |
| `Queue.StrayQueuedRecord` | job_queue.py:99-121 | that raise leaves a `queued` record outside the list: neither the next-job scan nor the clear-queue collection reaches it, the invariant fails, and queued plus running exceeds the list length by one |
| `Queue.ComparableAddConsistent` | job_queue.py:99-112 | with a comparable priority nothing raises, the invariant holds and the priority lands at the insertion position |
| `Queue.JobQueue.constructor` | job_queue.py:20-26 | a new queue has no jobs and an empty list |
| `Queue.JobQueue.AddJob` | job_queue.py:70-118 | with 100 listed ids it fails and changes nothing; otherwise it stores a fresh queued record (progress 0, no times, no error, no result) under a new id, inserts the id at the priority position and keeps a sorted list sorted |
| `Queue.JobQueue.GetNextJob` | job_queue.py:124-137 | the first queued job becomes running with a start time and is returned; the list is untouched; none returned and nothing changed when no job is queued |
| `Queue.JobQueue.CompleteJob` | job_queue.py:143-159 | a known job becomes completed with its result, progress 100 and a completion time, and leaves the list; an unknown id changes nothing |
| `Queue.JobQueue.FailJob` | job_queue.py:164-179 | a known job becomes failed with its message and a completion time, and leaves the list; an unknown id changes nothing |
| `Queue.JobQueue.CancelJob` | job_queue.py:184-206 | succeeds exactly for a known queued job, which becomes cancelled and leaves the list; otherwise nothing changes |
| `Queue.JobQueue.CollectQueued` | job_queue.py:335-338 | the loop collects exactly the listed queued ids |
| `Queue.JobQueue.CancelEach` | job_queue.py:340-343 | the loop cancels each given job and removes exactly those ids from the list |
| `Queue.JobQueue.ClearQueue` | job_queue.py:329-346 | every queued job is cancelled and removed; running and finished jobs keep their place and record |
| `Queue.JobQueue.ReorderJob` | job_queue.py:351-371 | succeeds exactly for a listed queued job, moving it to the clamped position; otherwise nothing changes; the ids are always a permutation of the old ones |
| `Queue.JobQueue.UpdateJobProgress` | job_queue.py:377-382 | a known job's progress becomes the value clamped to 0..100; nothing else changes |
| `Queue.JobQueue.GetPosition` | job_queue.py:252-259 | -1 exactly for an unlisted id; otherwise the 1-based position of its first occurrence |
| `Queue.JobQueue.GetStatus` | job_queue.py:261-282 | the queue length is the list's length, the total is the number of jobs, each count is the number of jobs with that status, and the next job is the list's head or none; the counts add up to the total, the queue length is queued plus running, and the next job is the one at position 1 |
| `Controller.ApplyOptions` | plotter_controller.py:92-101 | the loop over the settings yields `Applied`, which sets only option names the driver has |
| `Controller.AppliedKeepsNames` | plotter_controller.py:98-100 | applying settings never adds or removes an option name, and keys the driver lacks are ignored |
| `Controller.AppliedIdempotent` | plotter_controller.py:98-100 | applying the same settings twice is the same as once |
| `Controller.AppliedLaterWins` | plotter_controller.py:135-144 | applying the configuration and then the job overrides equals applying their union with the overrides winning |
| `Controller.ExecuteAccounting` | plotter_controller.py:189-214 | a job succeeds exactly when setup succeeded, the draw returned and no stop came; success counts a total and a successful job and sets the last job time; a failure never touches total or successful jobs |
| `Controller.CancelledIffStopped` | plotter_controller.py:183-187 | after a returning draw the result is "Job was cancelled" exactly when a stop came during it, and then no statistic changes |
| `Controller.DrawFailureCounted` | plotter_controller.py:206-209 | a draw that raises fails the job with its message and counts one failed job |
| `Controller.SvgRequired` | plotter_controller.py:147-155 | without SVG content or an existing SVG file the job fails with the "No valid SVG" message and no statistic changes |
| `Controller.OptionsFiltered` | plotter_controller.py:135-173 | the driver's options are its default names plus at most the resume options, and exactly the default names without a start position |
| `Controller.PlotterController.constructor` | plotter_controller.py:40-59 | a new controller is disconnected, not plotting, not paused, with no job, no error and zero statistics |
| `Controller.PlotterController.Initialize` | plotter_controller.py:61-90 | succeeds exactly when the plotter settings are a dict, `interactive()` returns, `connect()` returns true and `disconnect()` returns, leaving IDLE; otherwise ERROR with the message of the step that failed |
| `Controller.PlotterController.Pause` | plotter_controller.py:223-239 | succeeds exactly when plotting and not paused, setting PAUSED; otherwise nothing changes |
| `Controller.PlotterController.Resume` | plotter_controller.py:241-255 | succeeds exactly when paused, setting PLOTTING; otherwise nothing changes |
| `Controller.PlotterController.Stop` | plotter_controller.py:257-281 | succeeds exactly when plotting, paused or not, leaving the controller idle with no job; never leaves it plotting |
| `Controller.PlotterController.Serve` | plotter_controller.py:181-187 | pause, resume and stop calls during a draw leave it plotting exactly when none of them was a stop |
| `Controller.PlotterController.Accept` | plotter_controller.py:124-127 | an accepted job becomes the current job, plotting, not paused, status PLOTTING |
| `Controller.PlotterController.Finish` | plotter_controller.py:216-221 | the `finally` block leaves the controller idle with no job and the statistics untouched |
| `Controller.PlotterController.Run` | plotter_controller.py:129-214 | the result, the statistics and the driver options are those `Execute` gives for the job, the configuration and the driver's behaviour |
| `Controller.PlotterController.ExecuteJob` | plotter_controller.py:117-221 | a busy controller refuses with "already busy" and changes nothing; otherwise it runs the job as `Execute` says and always ends idle with no job |
| `Controller.PlotterController.ExecuteJobAsWritten` | plotter_controller.py:117-122 | as the code runs: the busy refusal also passes through `finally`, so even a refused call leaves the controller idle with no job |
| `Controller.PlotterController.ExecuteUtility` | plotter_controller.py:283-366 | refused while plotting; a non-dict `plotter_settings` or a failed driver setup is an error; an unknown command is reported by name; `home` with a driver that runs reports the home position; a command only runs, or returns plotter info, while not plotting and when it is known |
| `Controller.UtilityParamsOnlyMove` | plotter_controller.py:289-322 | every command but `move` replies the same whatever parameters were sent |
| `Controller.MoveNeedsDict` | plotter_controller.py:320-339 | `move` raises for parameters that are not a dict or a direction that is not a string, and otherwise moves when the driver runs |
| `Controller.BusyRejectionCancelsRunningJob` | plotter_controller.py:216-221 | with the code as written, a refused second job turns the first job's plotting flag off |
| `Controller.BusyRejectionKeepsRunningJob` | plotter_controller.py:120-122 | with the corrected guard, a refused second job leaves the first job plotting |
| `Config.Merge` | config_manager.py:151-161 | the result's keys are the union; default-only keys keep the default; a user value wins unless both sides are dicts |
| `Config.MergeNested` | config_manager.py:156-157 | a key that is a dict on both sides holds the recursive merge of the two |
| `Config.MergeEmpty` | config_manager.py:153-161 | merging an empty user map returns the default unchanged |
| `Config.MergeIntoEmpty` | config_manager.py:158-159 | merging into an empty default returns the user map |
| `Config.MergeSelf` | config_manager.py:151-157 | a configuration merged with itself is unchanged |
| `Config.MergeIdempotent` | config_manager.py:151-160 | merging the same user map twice is the same as once |
| `Config.MergeLeaf` | config_manager.py:155-159 | a non-dict user leaf inside a section always reaches the merged configuration |
| `Config.SectionSpec` | config_manager.py:243-354 | a section validates exactly when it is a dict whose every key validates; the result has the same keys, each holding its validator's value |
| `Config.UpdatesSpec` | config_manager.py:225-241 | validated updates have the same keys as the updates; validation fails only for a non-dict or a key whose section fails |
| `Config.FixedRangeHolds` | config_manager.py:262-284 | a fixed-range setting fails exactly when `int()` fails (on a string, `int()` strips white space and allows single underscores between digits; a float is truncated), and otherwise lies in its range |
| `Config.SpeedWithinLimits` | config_manager.py:249-253 | pen speeds lie in 1..100 without speed limits, and within the configured limits whenever min is at most max |
| `Config.PenWithinLimits` | config_manager.py:255-260 | pen positions lie in 0..100 without height limits, and within the configured limits whenever min is at most max |
| `Config.PlotterCoercions` | config_manager.py:286-299 | flag settings become booleans, `port_config` becomes 0 or 1, other unknown keys pass through unchanged |
| `Config.ApiRanges` | config_manager.py:321-338 | port within 1..65535, queue size and timeout at least 1, log level always one of the five names and kept when it is one |
| `Config.SafetyRanges` | config_manager.py:340-354 | the plot time limit is at least 60 and the limit tables are always dicts |
| `Config.ValidateSection` | config_manager.py:243-301 | the validation loop over a section yields `SectionSpec` |
| `Config.ValidateUpdates` | config_manager.py:225-241 | the validation loop over the updates yields `UpdatesSpec` |
| `Config.Saved` | config_manager.py:128-131 | saving adds a `last_updated` stamp and keeps every other key |
| `Config.ConfigManager.constructor` | config_manager.py:108-126 | no file gives the defaults saved; a readable dict is merged over the defaults; an unreadable or non-dict file gives the defaults |
| `Config.ConfigManager.UpdateConfig` | config_manager.py:171-187 | succeeds exactly when the updates validate, and then the configuration is the merge of the old one with the validated updates (saved when asked); otherwise unchanged |
| `Config.ConfigManager.UpdatePlotterSettings` | config_manager.py:189-206 | succeeds exactly when the settings validate and the current section is a dict; the section is then updated key by key |
| `Config.ConfigManager.ResetToDefaults` | config_manager.py:356-368 | the configuration becomes the defaults, saved when asked |
| `Config.ValidatedSettingSticks` | config_manager.py:171-187 | a validated non-dict plotter setting sent through `update_config` is what the merged configuration holds |
| `ChunkStore.StoreChunk` | app.py:267-269 | storing chunk n adds or overwrites exactly the name `chunk_n` |
| `ChunkStore.FirstMissingFrom` | app.py:286-290 | the first index from the start point whose chunk is absent, every earlier one present |
| `ChunkStore.FirstMissing` | app.py:286-290 | all chunks below it are present and it is absent unless it is the total |
| `ChunkStore.ReadChunks` | app.py:286-290 | the read loop succeeds exactly when every chunk 0..total-1 is present and yields their concatenation; otherwise it stops at the first missing one |
| `ChunkStore.ReadAndRemoveChunks` | project_manager.py:200-206 | as above, deleting each chunk after reading it, so a failed run leaves the unread chunks |
| `ChunkStore.SplitCount` | upload_large_file.py:85-98 | the client's split yields the ceiling of size / chunk size chunks |
| `ChunkStore.SplitConcat` | upload_large_file.py:95-98 | concatenating the split chunks gives back the file |
| `ChunkStore.ArriveNames` | app.py:268-272 | after any arrival sequence, re-sends included, the stored chunk names are those of the distinct indices sent, each holding that chunk |
| `ChunkStore.ArrivalCount` | app.py:272 | the received count is the number of distinct indices sent |
| `ChunkStore.ArrivalTrigger` | app.py:272-274 | the count reaches the total exactly when every index has arrived |
| `ChunkStore.JoinedIsConcat` | app.py:286-290 | reading back stored chunks 0..k-1 gives their concatenation |
| `ChunkStore.ArrivalRoundTrip` | app.py:267-290 | once the trigger fires, no chunk is missing and the reassembled file equals the original file |
| `Dispatch.SubmissionChecks` | app.py:118-151 | svg over 100 MiB gets 413; past that, 400 exactly when neither SVG field is given or `start_mm` is not a number; an accepted job keeps both SVG fields |
| `Dispatch.ChunkRequestCases` | app.py:250-272 | no `file_id` is a 400 without side effect; no chunk data is a 400 after the scratch directory was created; otherwise exactly `chunk_n` is stored and a re-send leaves the count unchanged |
| `Dispatch.LeaveQueued` | app.py:499-511 | taking a queued job out of the queued state lowers the queued count |
| `Dispatch.StayOutOfQueued` | app.py:508-514 | finishing a running job leaves the queued set unchanged |
| `Dispatch.NoQueuedLeft` | app.py:499-501 | in a consistent queue, no queued job found means no job is queued |
| `Dispatch.Server.constructor` | app.py:55-61 | the server starts idle with no scratch directories and no uploads |
| `Dispatch.Server.SubmitPlotJson` | app.py:114-163 | a refused submission changes nothing, a non-integer priority included (the corrected order, see Findings); a full queue gives 500; otherwise exactly one job is added, reported with its position, and the dispatcher starts when the controller is idle |
| `Dispatch.PriorityRefusedFirst` | app.py:142-153 | past the earlier checks, a submission is refused with the priority error exactly when its priority is not an integer or a boolean, and is accepted otherwise |
| `Dispatch.Server.Assemble` | app.py:274-322 | with every chunk present the file is their concatenation, the scratch directory is removed and one job is added that references it; with one missing, the partial file stays and the reply is an error |
| `Dispatch.Server.UploadPlotChunk` | app.py:245-333 | a refusal or an incomplete count stores the chunk and adds no job. When the count equals the total: with a chunk missing the file is partly written, the scratch directory stays and the reply is a server error; with all present the file is their concatenation and the scratch directory is gone, a malformed `config` or `priority` is a server error, and otherwise the job is queued exactly when the queue has room |
| `Dispatch.Server.Startup` | app.py:547-556 | a failed initialisation leaves status ERROR with the prefixed message and a non-idle controller; success leaves status IDLE |
| `Dispatch.Server.RunJob` | app.py:506-515 | the running job ends completed or failed, no other job changes and the controller is idle again |
| `Dispatch.Server.DispatchNext` | app.py:499-524 | one round of the dispatcher: with no queued job left it reports so and changes nothing; otherwise it runs the next one, the queued count drops and the status is IDLE again; ids and the id counter are kept and every job only moves forward |
| `Dispatch.DispatchedTrans` | app.py:493-524 | moving forward in the lifecycle composes across rounds |
| `Dispatch.Server.ProcessJobs` | app.py:491-529 | stalls, changing nothing, exactly when the controller is busy; otherwise drains until no job is queued; every job only moves forward in its lifecycle |
| `Projects.CompleteCountBound` | project_manager.py:140-143 | the complete-layer count never exceeds the number of layers |
| `Projects.AllComplete` | project_manager.py:140-147 | the count equals the layer count exactly when every layer is complete |
| `Projects.CompleteCountUpdate` | project_manager.py:140-143 | completing a layer adds one to the count unless it was already complete |
| `Projects.LayerCount` | project_manager.py:84-95 | a well-formed project has `total_layers` slots (none for a non-positive total) |
| `Projects.CompleteLayer` | project_manager.py:131-148 | the layer becomes complete with progress 100, its path, size and name; other layers are untouched; the count is recomputed; `ready` when it reaches the total |
| `Projects.CompleteLayerReady` | project_manager.py:145-148 | when every layer is complete the project is ready, and for a project not yet ready that is the only way to become ready |
| `Projects.MarkError` | project_manager.py:155-161 | exactly that layer becomes `error` with the message; nothing else changes |
| `Projects.WholeUpload` | project_manager.py:107-161 | a write failure marks the layer `error`, status `uploading`, count unchanged; success completes the layer, recounts, and is `ready` exactly when the count reaches the total |
| `Projects.ChunkStarted` | project_manager.py:175-187 | the chunk is stored under its name; chunk 0 also sets the layer and the project `uploading` |
| `Projects.Progressed` | project_manager.py:189-190 | only the layer's progress changes, to `(n+1)*100/total` truncated |
| `Projects.ChunkUpload` | project_manager.py:163-244 | a reply always describes the same layer's new state; an error always marks that layer `error` with the reply's message |
| `Projects.Reassembled` | project_manager.py:195-225 | the layer file is the concatenation of the chunks, which are removed, and the layer completes |
| `Projects.Interrupted` | project_manager.py:200-206 | the chunks up to the first missing one are written and removed, and the layer is marked `error` |
| `Projects.ChunkUploadZeroTotal` | project_manager.py:238-244 | a chunk count of 0 fails with the division error after storing the chunk |
| `Projects.ChunkUploadPartial` | project_manager.py:189-193 | below the total the reply has the stored count and the truncated progress, and no file is written |
| `Projects.ChunkUploadJoined` | project_manager.py:195-225 | at the total with every chunk present the layer completes with the concatenation and the reply reports 100 |
| `Projects.ChunkUploadMissing` | project_manager.py:200-206 | at the total with a chunk missing the layer fails and the earlier chunks have been consumed |
| `Projects.InitialLayers` | project_manager.py:84-95 | the loop creates exactly the slots `layer_0 .. layer_{n-1}`, each `not_started` with progress 0 |
| `Projects.ChunkStep` | project_manager.py:163-244 | the imperative chunk handler computes `ChunkUpload` |
| `Projects.Reassemble` | project_manager.py:195-225 | the read-and-delete loop completes the layer when every chunk is present and fails it otherwise |
| `Projects.ProjectManager.constructor` | project_manager.py:38-48 | no project is active |
| `Projects.ProjectManager.CreateProject` | project_manager.py:50-105 | the new project replaces any old one, status `created`, no layers uploaded, `total_layers` slots as given or 1 |
| `Projects.ProjectManager.UploadLayer` | project_manager.py:107-161 | no project or an unknown layer is an error that changes nothing; otherwise the project becomes `WholeUpload`'s result |
| `Projects.ProjectManager.UploadLayerChunked` | project_manager.py:163-244 | the same guards; otherwise the project becomes `ChunkUpload`'s result |
| `Projects.ProjectManager.GetLayerInfo` | project_manager.py:253-260 | info exists exactly for a layer of the active project, and it describes that layer |
| `Projects.ProjectManager.IsProjectReady` | project_manager.py:262-267 | true exactly when a project exists with status `ready` |
| `Projects.ProjectManager.ClearProject` | project_manager.py:286-306 | reports whether a project existed and leaves none |
| `Projects.LastLayerMakesReady` | project_manager.py:140-148 | uploading the one layer not yet complete makes the project ready |
| `Projects.WholeUploadReady` | project_manager.py:146-148 | after a successful upload the project is ready exactly when every layer is complete |
| `ProjectsOld.NewProject` | project_manager_old.py:61-77 | a new project is `created`, no SVG, size 0, no layers, progress 0 |
| `ProjectsOld.Uploaded` | project_manager_old.py:107-119 | the project becomes ready with the file, its size, progress 100 and the extracted layers |
| `ProjectsOld.Failed` | project_manager_old.py:127-133 | only status and message change, to `error` and the message |
| `ProjectsOld.WholeUpload` | project_manager_old.py:89-133 | a write failure sets `error` and writes nothing; success is `ready` with the file, its size and its layers |
| `ProjectsOld.ChunkStarted` | project_manager_old.py:142-153 | the chunk is stored; chunk 0 sets `uploading`; nothing else changes |
| `ProjectsOld.ChunkUpload` | project_manager_old.py:135-205 | an error always sets `error` with the reply's message; a reply reports the new status and progress; a chunk count of 0 is the division error |
| `ProjectsOld.Reassembled` | project_manager_old.py:161-186 | a complete set of chunks makes the project ready at 100 |
| `ProjectsOld.Interrupted` | project_manager_old.py:166-172 | a missing chunk sets `error` with the missing-chunk message; the chunks before it are in the design file and removed from the scratch area; nothing else changes |
| `ProjectsOld.ChunkUploadPartial` | project_manager_old.py:142-160 | a chunk short of the total is stored, the progress is `int((n+1)/total*100)`, the reply counts the chunks, and the drawing is untouched |
| `ProjectsOld.ChunkUploadMissing` | project_manager_old.py:161-172 | at the total with a chunk missing, the chunks before it are written out and removed and the project is `error` |
| `ProjectsOld.ChunkUploadJoined` | project_manager_old.py:161-197 | at the total with every chunk present the design file is the concatenation, chunks are removed, layers extracted, reply 100 |
| `ProjectsOld.FirstChunkUploading` | project_manager_old.py:142-156 | a first chunk below the total leaves the project `uploading` at the truncated progress |
| `ProjectsOld.ChunkStep` | project_manager_old.py:135-205 | the imperative chunk handler computes `ChunkUpload` |
| `ProjectsOld.Reassemble` | project_manager_old.py:166-186 | the read-and-delete loop gives `Reassembled` or `Interrupted` as the chunks allow |
| `ProjectsOld.ProjectManager.constructor` | project_manager_old.py:32-35 | no project is active |
| `ProjectsOld.ProjectManager.CreateProject` | project_manager_old.py:44-87 | the new project replaces the old one and is `NewProject` |
| `ProjectsOld.ProjectManager.UploadSvg` | project_manager_old.py:89-133 | no project is an error that changes nothing; otherwise the project becomes `WholeUpload`'s result |
| `ProjectsOld.ProjectManager.UploadSvgChunked` | project_manager_old.py:135-205 | the same guard; otherwise the project becomes `ChunkUpload`'s result |
| `ProjectsOld.ProjectManager.IsProjectReady` | project_manager_old.py:265-270 | true exactly when a project exists with status `ready`, and then its file is stored with the recorded size |
| `ProjectsOld.ProjectManager.GetOriginalSvgFileName` | project_manager_old.py:279-284 | always none, even when an original file name was recorded |
| `ProjectsOld.ProjectManager.IsValidLayer` | project_manager_old.py:293-307 | false with no project; otherwise `all` or the name or id of a listed layer |
| `ProjectsOld.ProjectManager.ClearProject` | project_manager_old.py:317-337 | reports whether a project existed and leaves none |
| `ProjectsOld.OriginalNameUnreachable` | project_manager_old.py:107-119 | after a successful upload the record holds `original_filename` but no `original_svg_file_name` |
| `SvgLayers.AllGroups` | project_manager_old.py:232-239 | the fallback lists one layer per group, with the group's id or `layer_{i}`, named by its literal `inkscape:label` attribute or else by that id |
| `SvgLayers.ExtractLayers` | project_manager_old.py:207-256 | the two extraction loops and the default yield `ExtractedLayers` |
| `SvgLayers.LabelledLayersExact` | project_manager_old.py:220-228 | a layer is listed by the first pass exactly when some group is a labelled Inkscape layer with that id and label |
| `SvgLayers.NoLabelledLayers` | project_manager_old.py:220-231 | the first pass is empty exactly when no group is a labelled Inkscape layer |
| `SvgLayers.LabelledLayersNamed` | project_manager_old.py:224-228 | every layer of the first pass has a non-empty name |
| `SvgLayers.ExtractedLayersCases` | project_manager_old.py:207-256 | never empty; the default for a parse failure or no groups; the labelled layers when there is one; else every group, numbered `layer_i` when it has no id and named by its literal label or its id |
| `SvgLayers.MatchesExact` | project_manager_old.py:304-307 | the search finds the name exactly when some layer has it as name or id |
| `SvgLayers.ValidLayer` | project_manager_old.py:293-307 | valid exactly with a layer list and either `all` or the name or id of a listed layer |
| `SvgStore.Stored` | svg_manager.py:50-69 | the new SVG is ready, holds only its file, with its size, progress 100, name and extracted layers |
| `SvgStore.WholeUpload` | svg_manager.py:35-79 | a write failure leaves no SVG and reports the error; success leaves a ready SVG holding the file |
| `SvgStore.Session` | svg_manager.py:86-104 | chunk 0 opens a fresh uploading session with no file and progress 0 |
| `SvgStore.ChunkUpload` | svg_manager.py:81-159 | a later chunk without an uploading session is refused with nothing changed; chunk 0 always opens a new session; a reply reports the new progress |
| `SvgStore.Reassembled` | svg_manager.py:124-146 | the design file is the concatenation, the chunks are removed, the layers extracted, and the SVG ready at 100 |
| `SvgStore.Interrupted` | svg_manager.py:129-135 | a missing chunk leaves the session uploading with the chunks read so far written and removed |
| `SvgStore.CompletedSessionClosed` | svg_manager.py:106-107 | once an upload completes, any further non-zero chunk is refused |
| `SvgStore.ChunkUploadJoined` | svg_manager.py:122-146 | at the total with every chunk present the SVG becomes ready with the concatenation and the reply reports 100 |
| `SvgStore.ChunkUploadPartial` | svg_manager.py:111-124 | below the total only the chunk and the progress are recorded and the SVG is not ready |
| `SvgStore.ChunkStep` | svg_manager.py:81-159 | the imperative chunk handler computes `ChunkUpload` |
| `SvgStore.Reassemble` | svg_manager.py:124-146 | the read-and-delete loop gives `Reassembled` (session closed) or `Interrupted` (session open) |
| `SvgStore.SvgManager.constructor` | svg_manager.py:23-33 | no SVG is held |
| `SvgStore.SvgManager.UploadSvg` | svg_manager.py:35-79 | the manager holds exactly what `WholeUpload` gives |
| `SvgStore.SvgManager.UploadSvgChunked` | svg_manager.py:81-159 | the manager holds exactly what `ChunkUpload` gives |
| `SvgStore.SvgManager.IsSvgReady` | svg_manager.py:224-237 | true exactly when a file is recorded and no upload is in progress; then the file is stored with its size and has layers |
| `SvgStore.SvgManager.IsValidLayer` | svg_manager.py:260-274 | false with no SVG; otherwise `all` or the name or id of a listed layer |
| `SvgStore.SvgManager.ClearSvg` | svg_manager.py:276-296 | reports whether an SVG existed and leaves none |
| `Ints.Clamp` | job_queue.py:382 | the result lies in the range, equals the value inside it, and is the lower bound for an empty range, as `max(lo, min(hi, v))` |
| `Ints.TruncReal` | config_manager.py:253 | `int()` of a float: the whole part, toward zero, within 1 of the value |
| `Ints.TruncDiv` | project_manager.py:190 | the quotient rounds toward zero, as Python's `int()` of a float quotient does: its sign is that of the exact quotient and its magnitude the whole part |
| `Ints.TruncDivUnique` | project_manager.py:190 | that contract admits exactly one quotient, and `-5 / 3` truncates to -1 |
| `Ints.PercentRange` | project_manager.py:190 | the progress of a chunk below the total lies in 0..100, and the last chunk gives 100 |
| `Strings.ParseIntToString` | app.py:250-251 | parsing a rendered integer gives it back |
| `Strings.NumberedInjective` | app.py:268 | distinct indices give distinct chunk names |
| `Strings.ParseInt` | app.py:250-251 | `int()` of a string succeeds exactly on an optional sign and a digit part, after stripping white space |
| `Strings.IntLiterals` | app.py:250-251 | `int(" 5\n")` is 5, `int("1_0")` is 10, `int("-0_7")` is -7 |
| `Strings.IntRefusals` | app.py:250-251 | `int()` refuses a doubled underscore, a leading underscore and a sign detached from its digits |
| `Strings.ExponentLiteral` | app.py:135-138 | `float()` accepts an exponent (`1e3`) |
| `Strings.SpacedLiteral` | app.py:135-138 | `float()` accepts surrounding white space and a fraction (` 2.5`) |
| `Strings.InfinityLiteral` | app.py:135-138 | `float()` accepts a signed infinity in any case (`-Inf`) |
| `Strings.FractionLiteral` | app.py:135-138 | `float()` accepts a number with no integer part (`.5`) |
| `Strings.FloatRefusals` | app.py:135-138 | `float()` refuses an exponent without digits and a lone point |
| `Json.PyInt` | config_manager.py:253 | `int()` keeps an integer, truncates a float toward zero, parses a string as `ParseInt` does, and raises on `None`, lists and dicts |

## Left out

- Threads and locks: every method runs atomically. The daemon dispatcher threads (app.py:157, 314) are one sequential `ProcessJobs` call, and interleavings are not modelled.
- Persistence: `save_queue`, `load_queue`, `_save_project_state`, `_save_svg_state`, `save_config` and the backup-on-failure path are left out because they are file I/O. `Config.Saved` only models the `last_updated` stamp that saving adds.
- File-system failures other than the `writeError` parameter: `makedirs`, reads and removes always succeed.
- Generated values: `uuid4` ids are a counter `nextId`. `md5`-derived file names are `DesignFile`/`LayerFile`. Clock readings are the `now` parameter. `secure_filename` is the identity.
- SVG parsing: `ElementTree.parse` is the `parsed` parameter, the groups in document order or `None` when parsing raises.
- The NextDraw driver: `plot_setup`, `plot_run`, utility motions and the `interactive`/`connect`/`disconnect` handshake of `initialize` are the oracles `DriverRun`, `UtilityRun`, `Handshake` and `Call<T>`. Constructing `NextDraw()` is assumed to succeed. Geometry and the `res_adj_mm` resume internals are not modelled.
- Floating point: progress is exact rational truncation `(n+1)*100/total`. Python's float formula can be one lower (29 of 100 chunks gives 28). `plot_time` is whole seconds. `float(start_mm)` is the predicate `PyFloatOk`.
- Json.JFloat: a JSON float is an exact `real`. The `NaN` and `Infinity` values that Python's `json` module also reads are not represented, and `str()` of a float is a fixed placeholder rather than Python's shortest repr.
- Strings.ParseInt / Json.PyFloatOk: white space is the Latin-1 set that `str.isspace` accepts, and digits are ASCII. Python's `int()` and `float()` also accept other Unicode white space and Unicode decimal digits, and the model refuses those.
- Json.PyFloatOk: every JSON integer counts as convertible. Python's `float()` raises `OverflowError` for an integer beyond the double range, which `submit_plot_json` (app.py:136-139) does not catch, so such a `start_mm` gets 500 in Python where the model queues the job.
- Dispatch.JsonSubmission / Controller.StartAt: the job record and the driver's `dist` option keep the `start_mm` JSON value as sent (`JStr("5")`, say) rather than the `float(start_mm)` Python stores (app.py:137, 149; plotter_controller.py:164). The float conversion is only checked by `PyFloatOk`, not carried out.
- Dispatch.ScratchOf: each `file_id` is its own scratch directory. Python joins the id into a path, so ids such as `a/b`, `..` or an absolute path can nest, alias or leave the temporary directory; that is not represented.
- Controller.UtilityCommand: `go_to_limit` depends only on the connection. The `interactive`, `update`, `moveto` and `disconnect` driver calls it makes, any of which can raise, are not modelled.
- Exception texts from Python itself (TypeError, KeyError, ZeroDivisionError, json and int parse errors) are fixed stand-in strings.
- Dispatch.PriorityValue: only integer and boolean priorities are accepted; a float priority (`JFloat`) is refused with a server error. Python also accepts a float, and a first job with any priority, because a comparison only raises once the queue is non-empty.
- Config.PlotterSetting: the limit values in `speed_limits`/`pen_height_limits` must be integers. A float limit (`JFloat`), accepted by Python's `max`/`min`, makes validation fail in the model.
- Projects.ProjectManager.CreateProject: `total_layers` is an integer; a non-integer value, which makes `range` raise at project_manager.py:84-95, is not modelled.
- Dispatch.Server.SubmitPlotJson: follows the corrected order of the Findings row: a non-integer priority is refused before anything is stored. The stray `queued` record that Python's `add_job` leaves behind in that case is modelled only by `Queue.AddAsWritten` and `Queue.StrayQueuedRecord`.
- Projects.ProjectData: `layer_names` is a map, so the path where a non-dict `layer_names` makes `.get` raise at project_manager.py:89, after `current_project` was already replaced at line 68, is not represented.
- `str()` of a list or dict is a fixed placeholder.
- Shallow copies in config_manager.py (lines 120, 126, 359, with the in-place `update` at 197) can alias `default_config` in Python. Dafny maps are values, so that aliasing is not reproduced.
- Not modelled because they only read or format state, or lie outside the job lifecycle:
  - the controller's `get_status`, `test_connection`, `_get_plotter_info` and `_apply_config_to_instance`;
  - `get_project_status`, `_get_project_info`, `_get_svg_info`, `get_svg_status`;
  - `update_project_status`, `get_layer_file_path`, `get_svg_file_path`, `get_available_layers`, `get_original_filename`;
  - `_cleanup_temp_dirs`, `cleanup_old_jobs`, `get_all_jobs`, `get_job`;
  - `export_config`, `import_config`, `update_plotter_info`, `get_config_schema`, `get_current_config`, `get_plotter_settings`.
- Flask plumbing is left out: routing, the multipart submission, health, status, job listing, the pause/resume/stop/config/utility/update/log routes and the error handlers. `update_status` is modelled as assignments to `appStatus` in the dispatcher and at startup.
- remote_update.py, serial_communication.py, time_utils.py, migrate_to_new_api.py, gunicorn.conf.py, wsgi.py and the two test drivers are not part of this model. upload_large_file.py contributes only its chunk splitting.

## Findings

| source | as written | input that shows it | evidently intended | confidence | as-written member | corrected member |
|---|---|---|---|---|---|---|
| plotter_controller.py:120-122 with 216-221 | the busy check's `return` sits inside the `try`, so the `finally` still runs and clears `current_job`, `is_plotting`, `is_paused` and sets IDLE | a second `execute_job` while a first job is drawing, as two dispatcher threads passing the idle check together can cause; the first job then reports "Job was cancelled" | a busy refusal leaves the running job's state untouched | not executed | `Controller.PlotterController.ExecuteJobAsWritten`, `Controller.BusyRejectionCancelsRunningJob` | `Controller.PlotterController.ExecuteJob`, `Controller.BusyRejectionKeepsRunningJob` |
| job_queue.py:99-121 with app.py:142-153 | `add_job` stores the record before comparing priorities, and the handler re-raises without removing it; `submit_plot_json` has no `try` around the call | a JSON submission with priority `"high"`, `null`, a list or a dict while the queue holds a job: the client gets 500, and a `queued` record stays that is never listed, dispatched or cleared, and `get_status` counts it as queued while `queue_length` does not | a refused priority leaves the queue as it was | not executed | `Queue.AddAsWritten`, `Queue.StrayQueuedRecord` | `Dispatch.Server.SubmitPlotJson`, `Dispatch.PriorityRefusedFirst` |
