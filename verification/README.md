# A verified model of ZGI's agent runner, RAG comparison, service container and data movers

This project models, in Dafny 4.11, the parts of the repository whose correctness cannot be read off one
function, and proves what they promise for every input, every interleaving or every reachable state.
`dafny verify dfyconfig.toml` checks everything.

**The agent runner** (TypeScript) talks to a boxed agent process over HTTP and Server-Sent Events.

- `FrameReader`: text arrives in arbitrary chunks and becomes process events. For every chunking the class
  `Reader` does what a one-shot split of the whole text prescribes, and framing and reading are inverse.
- `LazySpawn`: the stand-in for a process whose handle is still being opened. It has a closed-form log of
  everything that reaches the handle, and a conservation law for callbacks.
- `StdinPipeline`: the lazy wrapper's stream, the handle's stream and the pid gate composed, under every
  interleaving. The stdin POSTs are always a prefix of what the SDK wrote, and the close comes last.
  `PipelineKills` says which process each kill names, and `PipelineCalls` what becomes of every callback and what
  the handle receives.
- `Approvals`: the run registry and the permission protocol, one macrotask plus its microtasks per step. A
  permission POST answers 200 exactly when the waiting tool call receives its decision, and nothing is allowed
  without a reason.
- `BoxManager`: the sandbox boxes of sessions, with each `await` a place where other calls may come in. A run
  loses a box exactly when one of two guards is met; calm runs conserve boxes.

**The RAG comparison scripts** (Python).

- `Statistics` and `Comparison`: percentile, median, paired bootstrap interval, win counts and verdict. The
  whole report is symmetric in the two platforms, with the exact condition. `ReportMeaning` says from the two input
  tables alone when there is a report and what its rows, means, wins, interval and verdict are.
- `SampleIdentity`: a sample keeps its identity from the QA file through two scripts to the pairing.
- `EnvFile`: the `.env` printer and parser, and exactly which maps survive the round trip.

**The service container** (Go), `Container`: about fifty memoising getters that call each other, setter wiring,
and an initialization that rebuilds one service. Getters terminate by a rank; the wiring is an invariant.

**Two data movers** (Go). `Extraction`: documents to extraction output and back. `IconMigration`: a batch loop
over a `LIMIT` query that may return any rows.

`Basics` and `Text` hold shared sequence and string facts.

State that the source mutates is a class (`FrameReader.Reader`, `LazySpawn.Process`, `StdinPipeline.PidGate`,
`Approvals.Runner`, `BoxManager.Manager`, `Container.ServiceContainer`, `IconMigration.Migrator`). Each method's
postcondition equates the object's `View()` with a step function applied to its old view, and the theorems about
whole runs are about that step function.

## Findings

Each has a lemma at a concrete input and a theorem that says exactly when it happens.

- **A second `final` would drop a callback.** Before the handle exists, `final` overwrites a queued end
  callback (agent-runner/src/adapters/claude.ts:126). `LazySpawn.SecondFinalLoses` is the run;
  `LazySpawn.NothingLost` shows that this is the only way to lose one, and `PipelineCalls.WrapperRuns` that
  Node's `Writable` contract rules it out.
- **A kill may name no process.** The comment at agent-runner/src/adapters/claude.ts:82-84 says the handle
  resolves only after the `started` frame. The code resolves it with the response headers
  (agent-runner/src/sandboxClient.ts:107-113 and 195), so a kill that reaches the handle before that frame,
  directly or replayed at the resolution, sends a DELETE with an empty pid. `PipelineKills.EarlyKills` has both
  runs; `PipelineKills.KillsNameAProcess` is the condition. The model follows the code.
- **Overlapping `ensure` calls lose a box.** `BoxManager.OverlapLoses` is the run; `BoxManager.LosesExactly` is
  the condition. Runs without a session id all use the empty key, so they can overlap.
- **A JSON `null` frame ends the reader** with a `TypeError` that only the trailing `catch` sees: both streams
  are destroyed without an end mark. So does a frame whose data cannot be converted to a string.
  `FrameReader.NullFrame` is the case; `FrameReader.NoEndExactly` is the condition.
- **An empty result object breaks the symmetry of the report**: a sample that has only empty objects is reported
  as missing from Dify whichever way round the inputs are. `Comparison.EmptyRowMissesDify` is the case;
  `Comparison.RowSwaps` and `Comparison.ReportSwaps` are the condition.
- **A file service fetched before initialization leaves stale holders**: initialization forgets and rebuilds the
  file service, and services constructed with the old one keep it. `Container.StaleExtractor` is the case;
  `Container.InitializeCoherentExactly` is the condition. No getter called by the initialization itself builds
  such a holder (`Container.ContainerRun`).
- **One trip may not be a normal form**: the provider entry of a document's metadata changes once more on the
  second trip unless it already is the source. `Extraction.ProviderChangesTwice` is the case;
  `Extraction.OneTripEnough` is the condition.
- **Rows that can never be migrated may starve others**: the query keeps returning them.
  `IconMigration.Starvation` is a run with as many such rows as a batch holds, and
  `IconMigration.StarvationWithinBatch` shows that fewer are enough; `IconMigration.StarvesExactly` is the
  condition.

## Model

| member | source | states |
|---|---|---|
| `FrameReader.SplitUnsplit` | agent-runner/src/sandboxClient.ts:133-135 | Cutting at leftmost blank lines recovers any list of clean frames and a rest from their concatenation, so the decomposition is unique. |
| `FrameReader.UnsplitSplit` | agent-runner/src/sandboxClient.ts:133-135 | No text is lost or invented by cutting, every frame is free of blank lines, and so is the residual buffer. |
| `FrameReader.SplitAppend` | agent-runner/src/sandboxClient.ts:131-135 | Chunking independence of one step: splitting more text equals splitting the kept residue with the new text and appending the frames. |
| `FrameReader.SseSplits` | agent-runner/src/protocol.ts:71-77 | The concatenation of framed events splits into exactly their frames with nothing left, and each frame decodes to its event. |
| `FrameReader.DataLineIsFirst` | agent-runner/src/sandboxClient.ts:136-137 | The text that is parsed is that of the first line of the frame that starts with `data: `, wherever it stands, and there is none exactly when no line does. |
| `FrameReader.LoopDelivers` | agent-runner/src/sandboxClient.ts:144-169 | For every signal list and ending: each output stream gets exactly the in-order data before the first exit, error or crash, then one closing; the exit value and code are those of the first terminal frame, `null` at plain end of stream; the pid is the last one announced, and ready exactly if one was. |
| `FrameReader.StreamsWellClosed` | agent-runner/src/sandboxClient.ts:148-168 | Both streams carry data, then at most one end mark and one destroy, at least one of them, and no data after it. |
| `FrameReader.Reader.Feed` | agent-runner/src/sandboxClient.ts:131-160 | The inner loop equals the one-shot split of buffer plus chunk, dispatched up to the first terminal frame; while running, the kept buffer holds no blank line. |
| `FrameReader.Reader.Handle` | agent-runner/src/sandboxClient.ts:144-159 | The branches on the event type, with what the trailing `catch` adds for an error event. |
| `FrameReader.Reader.Run` | agent-runner/src/sandboxClient.ts:127-169 | For every chunking and every ending of the byte stream, the handle ends in the state prescribed by the split of the whole text, and everything due was delivered. |
| `FrameReader.RestIgnored` | agent-runner/src/sandboxClient.ts:150-159 | Once the exit promise is settled, text that was never read could not have changed the outcome. |
| `FrameReader.RoundTrip` | agent-runner/src/sandboxClient.ts:127-164 | Any chunking of any framed event list is read back as exactly that list, assuming only that JSON text has no raw newline and that parse inverts stringify. |
| `FrameReader.LawfulExists` | agent-runner/src/protocol.ts:75-77 | The two JSON assumptions can be met: a codec over all events that satisfies them. |
| `FrameReader.NullFrame` | agent-runner/src/sandboxClient.ts:138-144 | A `null` frame, in any chunking, leaves both streams destroyed without an end mark and the exit promise rejected. |
| `FrameReader.NoEndExactly` | agent-runner/src/sandboxClient.ts:150-168 | The streams get no end mark if and only if a `TypeError` is the first terminal signal, or there is none and the byte stream breaks. |
| `LazySpawn.BeforeSettlement` | agent-runner/src/adapters/claude.ts:112-127 | While the promise is pending, all writes are queued in order, the last end is queued, kills are remembered, and nothing reaches the handle. |
| `LazySpawn.CallLog` | agent-runner/src/adapters/claude.ts:134-143 | The complete log of every run that resolves: queued writes in order, queued end, exactly one kill if any was asked for, then each later call one for one; the queue is empty from then on. |
| `LazySpawn.RejectedRun` | agent-runner/src/adapters/claude.ts:145-152 | A rejected run never touches a handle; everything queued is failed in order, and what comes later stays queued. |
| `LazySpawn.StepConserves` | agent-runner/src/adapters/claude.ts:105-152 | One step accounts for each callback exactly once, except that it drops a queued end it overwrites. |
| `LazySpawn.Conservation` | agent-runner/src/adapters/claude.ts:105-217 | In every run each issued callback is queued, handed to the handle, failed or overwritten, with multiplicity: none is used twice. |
| `LazySpawn.NothingLost` | agent-runner/src/adapters/claude.ts:121-127 | No callback is overwritten if and only if `final` is never called while an end is already queued. |
| `LazySpawn.SecondFinalLoses` | agent-runner/src/adapters/claude.ts:121-127 | Two ends before the handle exists lose the first callback. |
| `LazySpawn.PromiseShape` | agent-runner/src/adapters/claude.ts:189-217 | In every reachable state: failures only after rejection, empty queues after resolution, no handle calls before it. |
| `LazySpawn.KilledExactly` | agent-runner/src/adapters/claude.ts:166-174 | In every run the process counts as killed if and only if a kill was asked for. |
| `LazySpawn.Process.StdinWrite` | agent-runner/src/adapters/claude.ts:113-120 | A write goes to the handle or to the end of the queue. |
| `LazySpawn.Process.StdinFinal` | agent-runner/src/adapters/claude.ts:121-127 | An end goes to the handle or replaces the queued end. |
| `LazySpawn.Process.KillProcess` | agent-runner/src/adapters/claude.ts:166-174 | A kill reaches the handle or is remembered. |
| `LazySpawn.Process.Flush` | agent-runner/src/adapters/claude.ts:134-143 | The replay loop: all queued writes in order, then the end, and both queues empty. |
| `LazySpawn.Process.FailPending` | agent-runner/src/adapters/claude.ts:145-152 | The rejection loop: all queued writes and the end are failed, and both queues empty. |
| `LazySpawn.Process.Resolve` | agent-runner/src/adapters/claude.ts:189-201 | Resolution flushes and then issues the remembered kill; a settled promise does not settle again. |
| `LazySpawn.Process.Reject` | agent-runner/src/adapters/claude.ts:213-216 | Rejection fails everything pending. |
| `StdinPipeline.PidGate.Request` | agent-runner/src/sandboxClient.ts:171-192 | A request is posted with the pid in force, or waits for the `started` frame. |
| `StdinPipeline.PidGate.OnStarted` | agent-runner/src/sandboxClient.ts:144-147 | The `started` frames of one chunk: the last one gives the pid, and then all waiting requests are released, in order, with that pid. |
| `StdinPipeline.RunInv` | agent-runner/src/adapters/claude.ts:112-143 | In every interleaving each accepted chunk is in exactly one stage and the stages are in order; end marks come last and once; a busy stream always has something to wait for. |
| `StdinPipeline.RunTookIn` | agent-runner/src/adapters/claude.ts:112-132 | In every interleaving the stream has taken in a prefix of what the SDK wrote before ending it, and all of it while nothing destroyed or broke it; it is then ended exactly if the SDK ended it. |
| `StdinPipeline.PostsArePrefix` | agent-runner/src/sandboxClient.ts:172-180 | In every interleaving the stdin POSTs carry a prefix of the chunks the SDK wrote, in order and without gaps. |
| `StdinPipeline.CloseIsLast` | agent-runner/src/sandboxClient.ts:181-192 | A close POST is the last request and the only one of its kind; by then the SDK has ended the stream, every chunk it wrote has been posted and, unless the stream died, answered. |
| `StdinPipeline.QuietMeansDelivered` | agent-runner/src/adapters/claude.ts:134-143 | No wake-up is lost: when nothing can move any more on a live stream, everything the SDK wrote has been posted, and the close too exactly if stdin was ended. |
| `StdinPipeline.DestroyEnds` | agent-runner/src/adapters/claude.ts:128-131 | After the SDK destroys the stream, or a POST fails, nothing more is taken in, and a resolved handle submits nothing more. |
| `StdinPipeline.PidsAnnounced` | agent-runner/src/sandboxClient.ts:171-193 | Every POST carries a pid that some `started` frame announced; a DELETE carries such a pid or none. |
| `StdinPipeline.PostsCarryThePid` | agent-runner/src/sandboxClient.ts:171-193 | If all `started` frames of a run name one pid, every POST carries it. |
| `PipelineKills.KillTargets` | agent-runner/src/sandboxClient.ts:195-208 | A kill on a resolved handle sends one DELETE naming the last announced pid, and the empty one before any `started` frame. |
| `PipelineKills.ReplayedKillTargets` | agent-runner/src/adapters/claude.ts:200-201 | The resolution sends one DELETE naming the last announced pid if a kill was remembered, however many were asked for, and none otherwise. |
| `PipelineKills.KillLog` | agent-runner/src/adapters/claude.ts:166-201 | In every run the DELETE requests are, in order, one for each kill that reaches the handle, directly or by replay, with the pid announced by then. |
| `PipelineKills.KillsNameAProcess` | agent-runner/src/sandboxClient.ts:195-208 | Every DELETE of a run names a process if and only if no kill reaches the handle before a `started` frame with a pid. |
| `PipelineKills.EarlyKills` | agent-runner/src/sandboxClient.ts:206-208 | Both orders of a kill and the resolution, with no `started` frame, send a DELETE with an empty pid. |
| `PipelineCalls.WrapperRuns` | agent-runner/src/adapters/claude.ts:112-143 | The wrapper inside the composed pipeline makes a run of the wrapper model in which no queued end is ever overwritten. |
| `PipelineCalls.IssuedOnce` | agent-runner/src/adapters/claude.ts:112-127 | In every interleaving each callback passed to the wrapper has a number of its own and is issued once. |
| `PipelineCalls.CallbacksMade` | agent-runner/src/adapters/claude.ts:112-127 | There is one callback for every accepted chunk that left the SDK-side stream and one for its end. |
| `PipelineCalls.NoCallbackLost` | agent-runner/src/adapters/claude.ts:105-152 | In every interleaving each callback issued is in exactly one place, once: still queued, handed to the handle, or failed by rejection; and no other callback is anywhere. |
| `PipelineCalls.StepApplies` | agent-runner/src/adapters/claude.ts:112-143 | The calls an event makes on the handle are the ones logged, the ones the handle's stream receives, and the ones whose kills are sent. |
| `PipelineCalls.RunHolds` | agent-runner/src/adapters/claude.ts:112-143 | In every run the chunks written to the handle are exactly those it has submitted followed by those its stream still buffers, and the stream is ended if and only if the wrapper closed it. |
| `PipelineCalls.HandleReceives` | agent-runner/src/adapters/claude.ts:134-143 | So once the promise has resolved, the handle has submitted or still buffers every chunk written before the resolution, in order, followed by every chunk written after it. |
| `Approvals.AfterInv` | agent-runner/src/adapters/claude.ts:247-267 | At every macrotask boundary the keys of each run's pending map are exactly its unsettled requests, the registry holds exactly the runs that are not closed, and timers and abort listeners are armed exactly as needed. |
| `Approvals.PermissionDecides` | agent-runner/src/app.ts:121-142 | A well-formed permission request answers 200 if and only if the addressed run has that call waiting; then the call receives exactly that decision; otherwise nothing changes. |
| `Approvals.OneAnswer` | agent-runner/src/app.ts:135-141 | Over a whole run at most one permission request per correlation id is ever answered 200. |
| `Approvals.RunsAreStarts` | agent-runner/src/app.ts:64-73 | Over every run of the server, its runs are the start requests answered 200 and its calls the tool calls, one to one and in order, each run with the key and the policy of its own request. |
| `Approvals.AllowedExactly` | agent-runner/src/adapters/claude.ts:241-270 | Over every run, a tool call is told to go ahead if and only if the request that started its run allows the tool, or does not forbid it and bypasses, or an approve for the call's own correlation id arrived while it was pending. |
| `Approvals.AllowJustified` | agent-runner/src/adapters/claude.ts:242-268 | The safety half: no tool call is allowed without one of these reasons. |
| `Approvals.DeniedExactly` | agent-runner/src/adapters/claude.ts:243-269 | Over every run, a tool call is denied if and only if its start request forbids the tool, or, while the call was waiting, its rejection, timeout, a stop, a shutdown, the disconnect or the end of the adapter came; nothing else settles a waiting call. |
| `Approvals.DeniedForGood` | agent-runner/src/adapters/claude.ts:254-269 | Over every run, a call that was waiting when its timer, a stop, a shutdown, a disconnect or the end of the adapter came is denied, stays denied, and was and will be approved by no request. |
| `Approvals.TimeoutDenies` | agent-runner/src/adapters/claude.ts:255-255 | The timeout of a waiting request settles it as deny. |
| `Approvals.StopDenies` | agent-runner/src/app.ts:110-119 | Stopping a run denies everything it waits for; a second stop changes nothing. |
| `Approvals.CloseDenies` | agent-runner/src/app.ts:77-85 | A disconnect denies everything pending and removes the run's own registry entry and no other. |
| `Approvals.AdapterEndDenies` | agent-runner/src/adapters/claude.ts:363-365 | The end of the adapter denies everything pending and leaves the registry alone. |
| `Approvals.ShutdownDenies` | agent-runner/src/server.ts:17-18 | A shutdown denies everything that any open run waits for, unless that run was aborted before. |
| `Approvals.Isolation` | agent-runner/src/app.ts:110-141 | An event addressed to one run changes no other run's state, none of its calls and not its registry entry. |
| `Approvals.ActiveKeysDistinct` | agent-runner/src/app.ts:64-73 | In every reachable state two open runs have different keys. |
| `Approvals.StartConflicts` | agent-runner/src/app.ts:64-68 | In every reachable state a start answers 409 if and only if a run that is still open has its key. |
| `Approvals.StopAnswers` | agent-runner/src/app.ts:110-118 | In every reachable state a stop answers 200 if an open run has the key and 404 otherwise. |
| `Approvals.PermissionAnswers` | agent-runner/src/app.ts:121-139 | In every reachable state a permission request answers 404 without an open run, 400 if malformed, 404 if nothing waits, and only a 200 changes anything. |
| `Approvals.MarksExactly` | agent-runner/src/app.ts:77-92 | In every reachable state a run is closed exactly if its client disconnected, and `session_started` was written exactly once if its adapter announced it, however often, and else never. |
| `Approvals.AbortedExactly` | agent-runner/src/app.ts:82-118 | A disconnect, a stop that names the run and a shutdown while it is open abort a run, and nothing else does. |
| `Approvals.SessionOnce` | agent-runner/src/app.ts:87-92 | In every reachable state `session_started` was written at most once per run. |
| `Approvals.Runner.StartRun` | agent-runner/src/app.ts:64-73 | A start answers 409 for an active key and otherwise registers a fresh run. |
| `Approvals.Runner.CanUseTool` | agent-runner/src/adapters/claude.ts:241-266 | The policy branches in order, then the registration of an approval with its timer and abort listener. |
| `Approvals.Runner.PostPermission` | agent-runner/src/app.ts:122-142 | The four answers of the permission handler and the step they make. |
| `Approvals.Runner.PostStop` | agent-runner/src/app.ts:110-119 | The two answers of the stop handler and the step they make. |
| `Approvals.Runner.OnTimeout` | agent-runner/src/adapters/claude.ts:255-255 | A timer that fires resolves its request with null. |
| `Approvals.Runner.Cleanup` | agent-runner/src/app.ts:77-81 | The cleanup: own registry entry removed by identity, everything pending answered with null, map cleared. |
| `Approvals.Runner.OnClose` | agent-runner/src/app.ts:82-85 | The close handler: abort, then cleanup, then the microtasks. |
| `Approvals.Runner.OnAdapterEnd` | agent-runner/src/adapters/claude.ts:363-365 | The loop at the end of a run, then the microtasks. |
| `Approvals.Runner.OnShutdown` | agent-runner/src/server.ts:17-18 | The loop that aborts every registered run, then the microtasks. |
| `Approvals.Runner.EmitSession` | agent-runner/src/app.ts:87-92 | The session frame is written the first time only. |
| `Approvals.Runner.DrainMicrotasks` | agent-runner/src/adapters/claude.ts:267-269 | Every resolved `await` continues: its pending entry is deleted and its verdict is given. |
| `BoxManager.LostForever` | agent-runner/src/boxManager.ts:13-42 | A box that nothing maps and nobody asked to delete stays so: nothing can name it any more. |
| `BoxManager.LosesExactly` | agent-runner/src/boxManager.ts:13-42 | A run loses no box if and only if no step inserts over a live entry or clears a map with one. |
| `BoxManager.CalmConserves` | agent-runner/src/boxManager.ts:13-42 | If ensures of one session do not overlap and none is in flight during `closeAll`, no box is lost, and outside `closeAll` boxes created = boxes mapped + boxes whose deletion was issued, as disjoint sets and in number. |
| `BoxManager.BoxIsKept` | agent-runner/src/boxManager.ts:14-15 | Over every calm run, once a session has a box `ensure` returns that same box until the session is released or the map is cleared. |
| `BoxManager.EnsureCreates` | agent-runner/src/boxManager.ts:13-23 | An ensure that finds no box creates one, from its end on the session has it, and no other session is affected. |
| `BoxManager.EnsureCreatesNothing` | agent-runner/src/boxManager.ts:14-20 | An ensure that finds a box changes nothing, and a failed creation leaves no box. |
| `BoxManager.ReleaseForgets` | agent-runner/src/boxManager.ts:29-33 | After a release the session has no box, the deletion of the box it had was issued, and nothing else changed. |
| `BoxManager.SweepDeletesAll` | agent-runner/src/boxManager.ts:35-42 | In every calm run, when a `closeAll` clears the map the deletion of every box in it was issued. |
| `BoxManager.WholeSweep` | agent-runner/src/boxManager.ts:35-42 | A `closeAll` with nothing interleaved asks for the deletion of exactly the mapped boxes and leaves none mapped. |
| `BoxManager.OverlapLoses` | agent-runner/src/boxManager.ts:14-21 | Two overlapping ensures of one session create two boxes and lose the first. |
| `BoxManager.Manager.BeginEnsure` | agent-runner/src/boxManager.ts:13-20 | `ensure` up to its `await`: the existing box, or a creation in flight. |
| `BoxManager.Manager.FinishEnsure` | agent-runner/src/boxManager.ts:21-22 | `ensure` after its `await`: the new box is mapped and returned. |
| `BoxManager.Manager.ReleaseBox` | agent-runner/src/boxManager.ts:29-33 | The deletion of the mapped box is issued and the entry removed. |
| `BoxManager.Manager.NextSweep` | agent-runner/src/boxManager.ts:37-41 | One turn of the loop of `closeAll`, or the final clearing. |
| `BoxManager.Manager.CloseAll` | agent-runner/src/boxManager.ts:35-42 | With nothing interleaved, exactly the mapped boxes are deleted and the map is empty. |
| `Statistics.SortNeg` | scripts/rag_evaluation/compare_rag_eval.py:271-271 | Sorting the negated values gives the negated sorted values backwards. |
| `Statistics.PercentileMonotone` | scripts/rag_evaluation/compare_rag_eval.py:298-308 | The interpolated percentile never decreases with the quantile over [0,1], so P50 is at most P95. |
| `Statistics.PercentileRange` | scripts/rag_evaluation/compare_rag_eval.py:298-308 | At 0 and 1 it is the minimum and the maximum of the values, and in between it stays between them. |
| `Statistics.PercentileOrderFree` | scripts/rag_evaluation/compare_rag_eval.py:301-301 | It depends on the multiset of values, not on their order. |
| `Statistics.PercentileAtRank` | scripts/rag_evaluation/compare_rag_eval.py:301-306 | At the relative position of an element of the ordered list the percentile is that element. |
| `Statistics.PercentileIsAt` | scripts/rag_evaluation/compare_rag_eval.py:301-303 | The percentile is the value of the ordered list at the position (n - 1) * q. |
| `Statistics.AtBetweenRanks` | scripts/rag_evaluation/compare_rag_eval.py:303-308 | Between two neighbouring ranks that value moves in proportion to the position. |
| `Statistics.MedianIsP50` | scripts/rag_evaluation/compare_rag_eval.py:298-308 | The fiftieth percentile is the median, although the two are computed differently. |
| `Statistics.IndicesMirror` | scripts/rag_evaluation/compare_rag_eval.py:272-273 | For every sample count the two interval indices are in range, in order and mirror images: high = samples - 1 - low. |
| `Statistics.MedianNeg` | scripts/rag_evaluation/compare_rag_eval.py:257-257 | The median of the negated values is the negated median. |
| `Statistics.BootstrapNeg` | scripts/rag_evaluation/compare_rag_eval.py:266-274 | With the same draws, negating the data maps the interval (low, high) to (-high, -low). |
| `Statistics.IntervalMeaning` | scripts/rag_evaluation/compare_rag_eval.py:266-274 | The interval lies above x if and only if at most floor(2.5%) of the resampled means do not exceed x, and below x if and only if at most floor(2.5%) are not below it. |
| `Statistics.ResampleSum` | scripts/rag_evaluation/compare_rag_eval.py:270-270 | The sum of a resample counts each value as often as it was drawn. |
| `Comparison.JudgeSwaps` | scripts/rag_evaluation/compare_rag_eval.py:226-229 | The winner is exchanged with the platforms if and only if the tolerance is not negative or the difference is not zero. |
| `Comparison.RowSwaps` | scripts/rag_evaluation/compare_rag_eval.py:160-193 | A comparison row, or the mismatch error, is exchanged with the platforms if and only if one of the two rows is present and not the empty object. |
| `Comparison.EmptyRowMissesDify` | scripts/rag_evaluation/compare_rag_eval.py:174-185 | A sample that has only an empty object is reported missing from Dify, whichever platform has it. |
| `Comparison.SameFailure` | scripts/rag_evaluation/compare_rag_eval.py:162-172 | The comparison fails on the same sample with the same error whichever platform comes first. |
| `Comparison.RowsSwap` | scripts/rag_evaluation/compare_rag_eval.py:153-194 | The rows of a comparison are exchanged if and only if every sample is usable on some side; which samples are paired never depends on the order. |
| `Comparison.SummarySwaps` | scripts/rag_evaluation/compare_rag_eval.py:232-263 | Exchanging the values exchanges means and win counts, negates mean and median difference and mirrors the interval. |
| `Comparison.VerdictSwaps` | scripts/rag_evaluation/compare_rag_eval.py:422-439 | The verdict of an exchanged summary is the exchanged verdict, because the interval is never empty. |
| `Comparison.ReportSwaps` | scripts/rag_evaluation/compare_rag_eval.py:40-48 | The whole report: exchanging the inputs gives the same error, or a report in which everything is exchanged if and only if every sample has a non-empty row on some side. |
| `Comparison.SummaryConsistent` | scripts/rag_evaluation/compare_rag_eval.py:245-263 | Wins, ties and losses add up to the pairs, the mean difference is the difference of the means, and the interval is ordered. |
| `Comparison.VerdictMeaning` | scripts/rag_evaluation/compare_rag_eval.py:422-439 | With at least two pairs a platform is declared better if and only if at most floor(2.5%) of the resampled mean differences speak against it. |
| `Comparison.WinnerMeans` | scripts/rag_evaluation/compare_rag_eval.py:208-229 | The winner of a sample is the platform that is ahead by more than the tolerance. |
| `ReportMeaning.ReportExactly` | scripts/rag_evaluation/compare_rag_eval.py:153-173 | There is a report if and only if the platforms agree on the question and reference of every sample they share and share at least one; otherwise the failure names a sample they disagree on, or says that they share none. |
| `ReportMeaning.RowsCarry` | scripts/rag_evaluation/compare_rag_eval.py:159-193 | The report has one row per sample of either table, in increasing order, each with that sample's texts and with each platform's own answer and scores in its own place. |
| `ReportMeaning.ScoreIsValue` | scripts/rag_evaluation/compare_rag_eval.py:197-205 | A row's score in a column is the metric itself, and in the composite column a fifth of the sum of all five, if all exist. |
| `ReportMeaning.SamplesExactly` | scripts/rag_evaluation/compare_rag_eval.py:238-242 | The samples a column is summarized over are exactly those for which both tables have a score in it. |
| `ReportMeaning.ReportMeans` | scripts/rag_evaluation/compare_rag_eval.py:245-263 | In every report, from the two tables alone: pairs are counted, as many times each mean as there are samples is the sum of that platform's scores, wins are the samples it is ahead on by more than the tolerance, the median is the fiftieth percentile of the differences, and the verdict is withheld for no sample and for one. |
| `ReportMeaning.ReportInterval` | scripts/rag_evaluation/compare_rag_eval.py:251-259 | The interval of each column is determined by how many resampled means of these differences lie above or below any x. |
| `ReportMeaning.BetterWins` | scripts/rag_evaluation/compare_rag_eval.py:433-434 | If Dify scores higher on every shared sample its mean is higher and the interval is positive whatever is drawn; for the composite of at least two samples the verdict is that Dify is better. |
| `Comparison.BuildComparisonRows` | scripts/rag_evaluation/compare_rag_eval.py:153-194 | The loop over the sorted union of ids, stopping at the first mismatch. |
| `Comparison.CollectPairs` | scripts/rag_evaluation/compare_rag_eval.py:238-242 | The collection of the score pairs of the paired rows that have both scores. |
| `Comparison.CountWins` | scripts/rag_evaluation/compare_rag_eval.py:248-250 | The counting loop over the differences. |
| `Comparison.SummarizeMetric` | scripts/rag_evaluation/compare_rag_eval.py:232-263 | A metric's summary is that of its score pairs, or empty without any. |
| `SampleIdentity.ReadQaItems` | scripts/rag_evaluation/run_ragas_eval.py:533-548 | The early-stopping loop returns the limited prefix of the complete rows. |
| `SampleIdentity.KeepExactly` | scripts/rag_evaluation/run_ragas_eval.py:541-545 | Exactly the rows with a question and a reference are kept. |
| `SampleIdentity.KeepConcat` | scripts/rag_evaluation/run_ragas_eval.py:540-545 | Keeping works piece by piece, so the order of the file is kept. |
| `SampleIdentity.LimitIs` | scripts/rag_evaluation/run_ragas_eval.py:546-547 | A limited list is the beginning of the list, as long as the limit says or the list is. |
| `SampleIdentity.CollectDifyRows` | scripts/rag_evaluation/run_dify_eval.py:112-156 | The collection loop of the Dify script, with its abort on a refused key. |
| `SampleIdentity.DifyNumbered` | scripts/rag_evaluation/run_dify_eval.py:125-156 | Row i carries id i + 1 and the texts of item i, whatever the replies. |
| `SampleIdentity.DifyStops` | scripts/rag_evaluation/run_dify_eval.py:136-148 | Collecting fails if and only if some reply is a 401 or 403; every other failure becomes a row. |
| `SampleIdentity.CallRagEvaluation` | scripts/rag_evaluation/run_ragas_eval.py:704-742 | The batch loop with its row-count check; on success there is one answer per question. |
| `SampleIdentity.ZgiComplete` | scripts/rag_evaluation/run_ragas_eval.py:723-742 | Whatever the batch size, the batches together hold one answer per question. |
| `SampleIdentity.ZgiRequests` | scripts/rag_evaluation/run_ragas_eval.py:715-739 | The evaluation of each item is the backend's own answer to its question, in a request of at most the asked batch size, or ten. |
| `SampleIdentity.EligibleTraceable` | scripts/rag_evaluation/run_ragas_eval.py:870-883 | Filtering keeps ids increasing and each row's question, answer and reference those its id names. |
| `SampleIdentity.EligibleExactly` | scripts/rag_evaluation/run_ragas_eval.py:870-874 | Exactly the rows with a response and no error are scored. |
| `SampleIdentity.BatchesFaithful` | scripts/rag_evaluation/run_ragas_eval.py:925-931 | If Ragas keeps rows, order and texts per batch, the batches together give each row, in order, its own texts and the scores Ragas gave to them, whatever the batch size. |
| `SampleIdentity.ScoreInBatches` | scripts/rag_evaluation/run_ragas_eval.py:920-931 | The batch loop of the scoring. |
| `SampleIdentity.RagasIdentifies` | scripts/rag_evaluation/run_ragas_eval.py:870-944 | Filtering, limiting, scoring and tagging give unique increasing ids whose rows have the question, reference and platform answer of their ids and the scores Ragas gave to these texts. |
| `SampleIdentity.ScoredExactly` | scripts/rag_evaluation/run_ragas_eval.py:870-944 | Scoring succeeds if and only if some row is eligible, and then exactly the eligible samples up to the limit are in the loaded table. |
| `SampleIdentity.DifyScored` | scripts/rag_evaluation/run_dify_eval.py:112-156 | No sample is dropped: without a Ragas limit, a sample id is in the loaded Dify table if and only if its item got a non-blank answer. |
| `SampleIdentity.ZgiScored` | scripts/rag_evaluation/run_ragas_eval.py:809-944 | The same for ZGI: without a Ragas limit, a sample id is in the loaded table if and only if its item was answered without an error. |
| `SampleIdentity.LoadResultRows` | scripts/rag_evaluation/compare_rag_eval.py:123-150 | The loading loop with its fallback id and its two errors. |
| `SampleIdentity.LoadExactly` | scripts/rag_evaluation/compare_rag_eval.py:123-150 | Loading succeeds if and only if all ids are usable and different, a missing one being the position, and then the table holds exactly the rows. |
| `SampleIdentity.LoadIdentified` | scripts/rag_evaluation/compare_rag_eval.py:123-150 | Loading such results never fails, and every loaded row has the texts, answer and scores of its id. |
| `SampleIdentity.AgreeingNeverMismatch` | scripts/rag_evaluation/compare_rag_eval.py:159-173 | Pairing two tables that agree with one QA file never reports a question or reference mismatch. |
| `SampleIdentity.IdentityPreserved` | scripts/rag_evaluation/run_ragas_eval.py:809-944 | End to end: for one QA file, any limits, batch sizes and backends, if both scripts succeed, both results load, every row carries the question and reference of the item its id names, that platform's own answer to it and the scores Ragas gave to these texts, and pairing reports no mismatch. |
| `EnvFile.ReturnedSame` | scripts/rag_evaluation/run_ragas_eval.py:678-680 | A quoted value is unquoted to itself if and only if it has no backslash, no double quote and no single quote at either end. |
| `EnvFile.LoadWrite` | scripts/rag_evaluation/run_ragas_eval.py:641-671 | For one-line entries with clean keys, loading what was written returns exactly the non-empty entries, each value quoted and unquoted. |
| `EnvFile.LoadClean` | scripts/rag_evaluation/run_ragas_eval.py:247-262 | Whatever the file holds, the parser returns only trimmed one-line keys without `=` or leading `#` and values without a single quote at an end. |
| `EnvFile.ParsePlain` | scripts/rag_evaluation/run_ragas_eval.py:254-261 | A value that is not quoted and has no blanks at its ends is taken as it stands. |
| `EnvFile.IgnoredExactly` | scripts/rag_evaluation/run_ragas_eval.py:254-260 | A line sets nothing if and only if it is blank, a comment, without `=` or without a key. |
| `EnvFile.LastLineWins` | scripts/rag_evaluation/run_ragas_eval.py:253-261 | The last line that sets a key decides its value, and lines that set nothing change nothing. |
| `EnvFile.FixedKeysFirst` | scripts/rag_evaluation/run_ragas_eval.py:664-670 | Every key of the fixed list is written before every other key. |
| `EnvFile.RoundTrip` | scripts/rag_evaluation/run_ragas_eval.py:641-680 | Loading what was written gives the map without its empty values if and only if every remaining key and value is clean. |
| `EnvFile.LoadEnvFile` | scripts/rag_evaluation/run_ragas_eval.py:247-262 | The parsing loop; later entries win. |
| `EnvFile.WriteEnvFile` | scripts/rag_evaluation/run_ragas_eval.py:641-671 | The two printing loops: the fixed keys first, then the others. |
| `Container.CallsLowerRank` | api/internal/container/service_container.go:245-1088 | Every getter called inside a getter has a lower rank, and none is a switched-off plugin runner. |
| `Container.GettersAcyclic` | api/internal/container/service_container.go:245-1088 | The getter call graph has no cycle, so every getter call terminates. |
| `Container.GetKeeps` | api/internal/container/service_container.go:245-1088 | A getter keeps the wiring invariant and every memo and partner, leaves its service built, builds nothing of a higher rank, and keeps every service built at most once. |
| `Container.ConstructKeeps` | api/internal/container/service_container.go:495-584 | Building a service, including the setter wiring between the dataset and organization services in either order, keeps the invariant. |
| `Container.WireCoreKeeps` | api/internal/container/service_container.go:372-416 | The core initialization puts every late-bound partner of account, tenant and adapter services in place and builds nothing that holds the file service. |
| `Container.InitializeWires` | api/internal/container/service_container.go:372-430 | After initialization from any coherent container everything is wired, and only file holders from before it are stale. |
| `Container.StaleHolder` | api/internal/container/service_container.go:418-430 | Each such holder does hold the forgotten file service and not the new one. |
| `Container.InitializeCoherentExactly` | api/internal/container/service_container.go:418-430 | After initialization every holder has the current services if and only if no holder of the file service existed before. |
| `Container.StaleExtractor` | api/internal/container/service_container.go:418-430 | A reachable case: a content extractor fetched before initialization is left with the forgotten file service. |
| `Container.InitializeOnce` | api/internal/container/service_container.go:372-430 | If no file service existed before, initialization builds every service at most once. |
| `Container.ContainerRun` | api/internal/container/service_container.go:245-1088 | A new container, initialized, then used by any getter sequence: each service built at most once, every constructor argument is the current service, dataset and late-bound partners in place, no memo ever changed. |
| `Container.ContainerPartners` | api/internal/container/service_container.go:386-430 | In the same runs account, tenant and adapter services have their partners, named one by one, the published extractor uses the current file and content-parse services, and nothing switched off is ever built. |
| `Container.ServiceContainer.GetService` | api/internal/container/service_container.go:495-597 | The memoising recursion of the getters, terminating by rank. |
| `Container.ServiceContainer.InitializeCoreServices` | api/internal/container/service_container.go:379-384 | The first phase: the four core getters in order. |
| `Container.ServiceContainer.WireLate` | api/internal/container/service_container.go:386-416 | The second phase: each late-bound partner is fetched and set, in order. |
| `Container.ServiceContainer.PublishFile` | api/internal/container/service_container.go:418-430 | The last phase: the file service is forgotten, rebuilt and published. |
| `Container.ServiceContainer.InitializeDependencies` | api/internal/container/service_container.go:372-377 | The phases of the initialization, in order. |
| `Extraction.TripNormalizes` | api/internal/dto/extract_dto.go:39-114 | Documents to output to documents normalizes each non-blank document on its own, in order, and the markdown fallback never fires. |
| `Extraction.TripKeepsContents` | api/internal/dto/extract_dto.go:39-114 | The non-blank trimmed contents survive in order and nothing else comes back. |
| `Extraction.OrdinalsIncrease` | api/internal/dto/extract_dto.go:46-68 | Ordinals strictly increase and point at the document the element came from, whose content, metadata with provider, type and page it has. |
| `Extraction.OneTripEnough` | api/internal/dto/extract_dto.go:56-59 | A second trip changes nothing if and only if every non-blank document's provider entry already is the source (or the source is empty). |
| `Extraction.OneTripTooFew` | api/internal/dto/extract_dto.go:57-59 | A document whose provider is another than the source changes on its second trip. |
| `Extraction.ProviderChangesTwice` | api/internal/dto/extract_dto.go:57-59 | One such document. |
| `Extraction.TwoTripsEnough` | api/internal/dto/extract_dto.go:39-114 | After two trips nothing changes any more, for all documents. |
| `Extraction.TextFromEither` | api/internal/dto/extract_dto.go:117-132 | The output's text is the same from the markdown as from the elements: the contents joined by newlines. |
| `Extraction.TripKeepsText` | api/internal/dto/extract_dto.go:39-132 | A trip does not change the text of the output. |
| `Extraction.TripMetadata` | api/internal/dto/extract_dto.go:56-96 | What a trip does to each metadata entry of a document: page, element type and source keep their values or get their defaults, the provider is overridden, every other entry stays. |
| `Extraction.ElementMetadata` | api/internal/dto/extract_dto.go:87-102 | What becomes of any element: its trimmed content, the source as provider, and its page, type and source where the metadata has none. |
| `Extraction.FallbackExactly` | api/internal/dto/extract_dto.go:105-111 | The markdown becomes the one document if and only if no element has content and the markdown has some. |
| `Extraction.PageIs` | api/internal/dto/extract_dto.go:145-163 | The page is the integer in the metadata, a float cut towards zero, and zero for anything else. |
| `Extraction.NewExtractOutput` | api/internal/dto/extract_dto.go:39-72 | The loop with its string builder and metadata override. |
| `Extraction.OutputToDocuments` | api/internal/dto/extract_dto.go:75-114 | The loop with its metadata defaults and the markdown fallback, and the nil output. |
| `Extraction.ExtractOutputText` | api/internal/dto/extract_dto.go:117-132 | The text of an output, by its loop. |
| `IconMigration.BatchEffect` | api/cmd/migrate_icons/main.go:154-231 | A batch turns exactly its good rows into images that hold the file uploaded for them, counts them, and touches no other row. |
| `IconMigration.BatchFailures` | api/cmd/migrate_icons/main.go:157-228 | A batch counts exactly its failing rows, so each of its rows is migrated, counted as failed, or skipped. |
| `IconMigration.GoodExactly` | api/cmd/migrate_icons/main.go:158-231 | A row is migrated if and only if its icon is an image data URL with a comma in it and all outside calls succeed. |
| `IconMigration.MigrationConserves` | api/cmd/migrate_icons/main.go:132-239 | For every choice of the `LIMIT` queries and every failure: the migrated count equals the drop in base64 agents and never exceeds the initial count, every migrated agent holds the file uploaded for it in one of the batches, and every other row is unchanged. |
| `IconMigration.CeilingCovers` | api/cmd/migrate_icons/main.go:132-132 | The number of batches computed up front has room for all rows. |
| `IconMigration.MigrationCompletes` | api/cmd/migrate_icons/main.go:132-239 | If no query fails and no row is skipped or fails, ceil(total/batch) batches leave none, whichever rows the queries choose. |
| `IconMigration.BadRowStays` | api/cmd/migrate_icons/main.go:157-228 | A row that is skipped or fails in every batch is still base64 at the end. |
| `IconMigration.CompletesExactly` | api/cmd/migrate_icons/main.go:132-239 | If rows behave the same in every batch and no query fails, nothing is left if and only if every base64 row is good. |
| `IconMigration.ProgressDespiteBadRows` | api/cmd/migrate_icons/main.go:132-239 | With b rows that can never be migrated, b below the batch size and no failed query, at least min(good, batches * (batch size - b)) and at most all good rows are migrated, whichever rows the queries choose. |
| `IconMigration.ProgressDespiteFailures` | api/cmd/migrate_icons/main.go:143-148 | A failed query wastes its own batch and no other: the bound holds with the number of answered batches. |
| `IconMigration.StarvesExactly` | api/cmd/migrate_icons/main.go:132-239 | If no query fails and rows behave the same in every batch: all good rows are migrated whichever rows the queries choose, if and only if there are none, or the bad rows are fewer than the batch size and good <= batches * (batch size - bad). |
| `IconMigration.StarvationWithinBatch` | api/cmd/migrate_icons/main.go:139-165 | One bad row, three good ones and batches of two: some legal choice of rows leaves a good row behind. |
| `IconMigration.Starvation` | api/cmd/migrate_icons/main.go:139-165 | With as many such rows as a batch holds, a legal choice of rows leaves a good row behind although nothing fails. |
| `IconMigration.Migrator.RunBatch` | api/cmd/migrate_icons/main.go:157-231 | The inner loop with its skip and failure branches. |
| `IconMigration.Migrator.Run` | api/cmd/migrate_icons/main.go:132-239 | The batch loop: a failed query wastes its batch, an empty result ends the loop, and the count equals the drop in base64 agents. |

## Left out

- HTTP, Express, `fetch`, the Claude and Codex SDKs and UTF-8 decoding: text chunks, requests and answers are events or parameters.
- JSON is abstract: what is used of it is that its text has no raw newline and that parse inverts stringify; payloads are taken after the source's string coercions.
- Node's `Writable` is written out as its contract (one write in flight, `final` once and after all writes) and not as Node's code.
- agent-runner/src/adapters/stub.ts and agent-runner/src/adapters/codex.ts: a fixed demonstration script, and a mapping of SDK events; `Approvals` is about the Claude adapter.
- Writes the lazy stdin accepts after its promise was rejected stay queued, and a request made after an abort is settled only by its timer, a reply or the end of the run; no claim is made that every callback eventually settles.
- The forwarding of stdout and of the exit code in `toLazySpawnedProcess`, and the writing of other events to a response: plain forwarding.
- Session keys that clients choose are assumed different from the generated `run-` ones.
- A box whose creation succeeded at the sandbox but whose response was lost is outside the model of `BoxManager`.
- Floats are reals, without rounding, infinities or NaN; the seeded generator is any matrix of index draws that depends on the number of values only.
- Statistics.Percentile: the quantile lies in [0,1], as both callers pass it (0.50 and 0.95).
- Comparison.ReportSwaps: the tolerance is not negative, as the command line enforces; `Comparison.JudgeSwaps` covers all tolerances. Texts that are JSON `null` are taken as empty strings.
- Operational dataset statistics, report rendering, argument parsing, prompts, token caching, reuse of saved datasets and the retry delays of `post_with_retries`: input, output and one-branch facts.
- Reading Excel and CSV, header detection and cell cleaning: the QA file is a list of cleaned rows. That Ragas returns one row per input, in order, with its question, answer and reference is a hypothesis (`Faithful`).
- EnvFile.RoundTrip: file access is left out; a CRLF is two line breaks, whose extra blank line the parser skips. It holds for any list of fixed keys and any order of the others.
- Container: services are values with the partners they were given, so aliasing inside a service, constructor failures, a nil LLM client and setters called from outside the container are not modelled. Where a getter builds a service and then calls a setter on it at once, the partner counts as a constructor argument. The global content extractor that initialization publishes counts as one more service.
- Container.InitializeWires: initialization is called once per container, as the program does.
- Extraction: BBox, Subtype and Precision, which these conversions do not fill, the freshness of cloned maps, and integer overflow in page numbers.
- api/internal/dto/transformed_chunk_dto.go: field-by-field copies that would only add easy members.
- IconMigration: dry-run and statistics modes, which change nothing, other writers, and a batch size below one.
- api/config, api/middleware, api/internal/migrations, api/routes, the other DTO files and the web front end: defaults, glue, schema text and plain records.
