# Agent runs, verified

A Dafny model of the parts of the backend where many things can go wrong at once: the protocol that carries an agent
run through Postgres, Firestore, Redis and a sandbox; the throttler's Redis script; the resolution of workspace paths
and the truncation of tool output; the fan-out of run events and the paged reading of steps; and the membership cache.

`dafny verify dfyconfig.toml` checks the project.

## How it is laid out

**The run protocol.** JavaScript runs without interruption from one `await` to the next, so an executor of a run is
modelled as a program counter at an await plus the local variables of `execute` and `runLoop` (`Executor`). `Resume`
takes what the awaited operation settled with and runs to the next await. `RunProtocol` puts any number of executors,
the request that creates the run, cancellation and crashes over the shared stores; a `Choice` decides for every
operation whether it rejects and, for store writes, whether a rejected one took effect all the same. A property proved
of `Run(NOTHING, actions)` for every sequence `actions` therefore holds of every interleaving with every pattern of
faults and crashes.

- `ExecutorInvariants`, `ExecutorHistory`: what each executor keeps, whatever the world does to it.
- `Interleavings`, `RunTheorems`: what the shared state keeps, and the results read off it.
- `Outcomes`: what exceptions an execution can catch. `Exchanges`: what the model and the tools said, read off the
  actions alone, and the conversation, rows and ending it determines. `Origins`: where an executor's prompt, indices and
  dates come from. `Progress`: termination. `Cancellation`.
- `RunRecords`: the record and its mirror in every interleaving, from `create` on. `SequentialRuns`, `SandboxRecords`:
  one live executor at a time, from the start or since any moment at which nobody worked on the RUNNING run.
  `Divergence`, `SandboxCrossing`: how the stores part.
- `AgentBackend`, `AgentLoop`: the loop as it is written, with its `for` loops and try/catch/finally, over stores that
  other workers change before every operation. Every method is proved to leave the program exactly where the executor
  of the protocol is, so whatever is proved of the protocol holds of the code. `AgentRuns`: `create` and `cancel`.

**The other components.** `Throttler`, and `ThrottlerWindows`, which says the same in the times of the calls alone;
`Decimal`, `Utf8`, `Truncation`; `Paths`, `WorkspacePath`, and `PathLaws`, which says on path strings what resolving
means; `Pagination`, `TranscriptReads`; `AgentEvents`, `LiveStream`; `Memberships`, `MembershipServices`.

## What turned out otherwise than documented

- *"Safe to re-invoke after a worker restart"* (src/agent/agent-loop.service.ts:59-63) and *"no silent divergence"*
  (src/firebase/firestore-mirror.service.ts:42-46): every sole worker that stops between the two writes of
  `finishRun` leaves Postgres terminal and the mirror with another status, and every later execution skips the run, so
  it stays that way (`CrashDivergesForGood`). With one live executor at a time the stores disagree exactly when a write to
  Postgres was not followed by its write to the mirror: one of `create`, or the last status of some executor
  (`StoresAgreeUnlessSomeoneLags`). With two executors they can disagree although both return normally
  (`RacingExecutorsDisagree`). An execution that starts alone on a RUNNING run and returns normally does leave them in
  agreement on status, error and finishedAt, whatever the executors before it did (`ReturnsInAgreement`), but not on
  the sandbox: two earlier executors that overlapped can have written theirs crosswise (`CrossedSandboxesStay`), and
  that difference stays until a later executor stores its own sandbox in Postgres (`SandboxIdsDiffer`).
- `create` can leave the stores apart as well: when the mirror write rejects the run is FAILED in Postgres alone, and
  the document is missing, or RUNNING if the rejected write took effect all the same. The write that marks the run
  FAILED can reject too, and the run is then RUNNING in Postgres, without a job (`CreateRun`, `Leaves`). A failed
  audit write leaves a RUNNING run in both stores that has no job (`RejectedAuditStrands`), and a process that dies
  earlier leaves one in Postgres alone (`DeadCreateStrands`), both for good (`StrandedIsForever`).
- An execution does not always publish a terminal event before its end marker: the event is missing exactly when the
  catch block itself threw (`ChannelIsOrdered`).
- The first terminal status is not final: a rejected `finishRun` write or terminal publish after it turns COMPLETED or
  CANCELLED into FAILED (`OnlyTheSameExecutionRevises`). FAILED is final with one live executor at a time
  (`FailedIsFinal`).

## Inputs this application does not use

The functions below are stated for all inputs, so their results name some that do not occur here.

- Ids are generated UUIDs (prisma/schema.prisma:29, prisma/schema.prisma:45), so they hold no colon, and the keys of
  the membership cache never coincide (`KeysCoincide`, `KeysAreInjective`).
- There is one throttler, without a name of its own (src/app.module.ts:43-48), so no two names share a Redis key
  (`NamesCanCollide`). It configures no block duration; `WithoutBlockNothingIsLimited` is about an explicit 0.
- The callers of `resolveWorkspacePath` pass `/home/user` (src/agent/sandbox/sandbox.service.ts:6), which is canonical
  and not the root, so the string test means "inside" (`AcceptsExactlyInside`). `AcceptedExactly` says what every other
  string would do.

## Model

| member | source | states |
|---|---|---|
| ExecutorInvariants.ResumeFollows | src/agent/agent-loop.service.ts:122-200 | Inside the loop, whatever an operation resolves with, the rows the executor has written stay the step-by-step rendering of its conversation, up to the very step it is about to write |
| ExecutorHistory.AdvanceKeepsInv | src/agent/agent-loop.service.ts:79-206 | Every settled operation, resolved or rejected, applied or not, keeps statuses, rows, local index, call/result pairs, publishes, sandbox use and call count in step with the place in the program |
| Interleavings.EveryRunIsGood | src/agent/agent-loop.service.ts:64-246 | In every interleaving of executors with faults and crashes: indices dense, each executor's rows contiguous, documents copies of rows, each executor's publishes in order on the channel, sandboxes accounted for |
| RunTheorems.IndicesAreDense | src/agent/agent-loop.service.ts:120-203 | In every reachable state the stored step indices are exactly 0..n-1 |
| RunTheorems.NextIndexIsAtMostCount | src/agent/agent-loop.service.ts:230-237 | The index an executor is about to create is at most n, and the unique key accepts it if and only if it equals n |
| RunTheorems.RowsAreForever | prisma/schema.prisma:153-166 | No later action of anybody changes or removes a stored step |
| RunTheorems.BlocksAreContiguous | src/agent/agent-loop.service.ts:120-203 | Executors never interleave in the transcript: rows between two rows of one executor are its own |
| RunTheorems.ResultsFollowCalls | src/agent/agent-loop.service.ts:163-199 | A TOOL_RESULT row directly follows the TOOL_CALL row of the same name and writer; a TOOL_CALL without it is the last row its writer ever writes |
| RunTheorems.TranscriptRendersConversation | src/agent/agent-loop.service.ts:117-200 | At each model call, and when it marks the run COMPLETED, the executor's stored rows are one for one the rendering of the messages it holds |
| RunTheorems.MirrorCopiesRows | src/firebase/firestore-mirror.service.ts:65-72 | Mirrored steps are a subset of the rows with equal contents, and the create-only `addStep` never meets an existing document |
| RunTheorems.FewAreUnmirrored | src/agent/agent-loop.service.ts:230-245 | Rows missing from the mirror number at most the executors ever started |
| RunTheorems.ChannelIsOrdered | src/agent/agent-loop.service.ts:89-105 | What an executor publishes is always run_started, the events of its rows in order with at most the last missing, run_completed, run_cancelled or run_failed with the error according to the status it wrote last, an end marker: a prefix of that, with the terminal event left out exactly when the catch block threw |
| RunTheorems.SandboxesAreAccountedFor | src/agent/agent-loop.service.ts:79-104 | A sandbox is alive exactly until the executor that obtained it kills it, and no two executors share one |
| RunTheorems.SandboxIsKilledOnce | src/agent/agent-loop.service.ts:94-104 | An executor that ended without crashing tried to kill the sandbox it obtained exactly once |
| RunTheorems.NothingRunsAfterKill | src/agent/agent-loop.service.ts:94-107 | After the kill was tried no tool runs, no model call is made and no second kill is tried |
| RunTheorems.ConversationAlternates | src/agent/agent-loop.service.ts:117-200 | At the k-th model call the conversation has 2k+1 messages: the prompt, then replies and user entries in turn, each with the tool_use ids of the reply before it, in order |
| RunTheorems.CallsAreBounded | src/agent/agent-loop.service.ts:122-135 | No executor makes more than maxIterations model calls |
| RunTheorems.StatusIsExplained | src/agent/agent-loop.service.ts:84-93 | The status an execution that returned wrote last is FAILED exactly when an exception was caught, with its message; else CANCELLED exactly when a check saw the key; else COMPLETED, on a reply that ends the loop |
| Outcomes.ToolHungryRunsFail | src/agent/agent-loop.service.ts:203-205 | When every reply asks for tools and no check sees the key, an execution writes no status but FAILED, whether it returns or throws, and with the iteration-limit message when no operation of the try block rejected |
| Outcomes.FaultlessCatchesTheLimit | src/agent/agent-loop.service.ts:79-93 | An execution whose try block awaits no rejected operation catches nothing but the iteration limit, in every interleaving |
| Outcomes.CaughtWasThrown | src/agent/agent-loop.service.ts:84-86 | Whatever an execution has caught is the message with which one of its own operations in the try block rejected, or the iteration limit's |
| Outcomes.ThrownIsCaught | src/agent/agent-loop.service.ts:84-86 | The message an operation of the try block rejects with is what the execution has caught from then on, in every later history |
| Outcomes.LimitMessageReads | src/agent/agent-loop.service.ts:203-205 | The iteration limit's message holds the decimal numeral, without leading zeros, that reads as the limit |
| Outcomes.RevisionsFollowAFault | src/agent/agent-loop.service.ts:156-159 | An exception caught after COMPLETED or CANCELLED reached Postgres is, in every history, the rejection of a write of finishRun or of the terminal publish |
| Exchanges.CallsContinueTheConversation | src/agent/agent-loop.service.ts:129-200 | At every model call, in every history: each reply so far asked for tools and had every tool use answered with what that tool put out and its error flag; the messages are the prompt, these replies and these answers; the executor's stored rows are their texts, calls and outputs |
| Exchanges.CompletedOnTheFirstAnswer | src/agent/agent-loop.service.ts:156-160 | COMPLETED means that the last reply did not ask for tools and all before it did and were answered; the rows then are the texts, calls and outputs of everything said |
| Exchanges.LimitMeansAllAsked | src/agent/agent-loop.service.ts:122-205 | Without a rejection in the try block an exception means exactly maxIterations replies, all of which asked for tools and were answered; a check sees the cancel key only when nothing is left unanswered |
| Exchanges.ToolsRunInTurn | src/agent/agent-loop.service.ts:162-178 | A tool runs only for a reply that asked for tools, and for its first tool use without an output |
| Exchanges.RenderConversed | src/agent/agent-loop.service.ts:129-200 | Rendering a conversation gives the rows of what was said |
| Origins.IndicesContinueTheCount | src/agent/agent-loop.service.ts:120-184 | Whatever others do, an executor's rows take the indices from the count it made on, one after the other; one is taken already only if another executor stored it since that count |
| Origins.WorksAsStarted | src/agent/agent-loop.service.ts:64-119 | In every history an executor works with the prompt and iteration bound it was started with |
| Origins.FinishWasStamped | src/agent/agent-loop.service.ts:216-225 | The status, error and date an executor wrote last are those of one of its own finishRun writes, with the date at which that write settled |
| Origins.CountsAreOfActions | src/agent/agent-loop.service.ts:122-178 | The counts the results speak of are those of the model calls, tools and kills that settled in the history |
| Progress.ResumeLowersRank | src/agent/agent-loop.service.ts:122-206 | Every settled operation lowers a lexicographic rank of stage, iterations left, part of the iteration, blocks or tool uses left, and operation |
| Progress.Terminates | src/agent/agent-loop.service.ts:64-108 | An execution that does not crash ends, however its operations settle |
| RunRecords.CreationOfRun | src/agent/agent-runs.service.ts:74-131 | In every history a job exists only after both stores held the run as RUNNING, and executors only after the job |
| RunRecords.CreationKeepsInStep | src/agent/agent-runs.service.ts:74-131 | As long as no job exists each store is what the writes of create that took effect leave, and they disagree if and only if a write to Postgres took effect without its write to the mirror, or the run was marked FAILED for not being mirrored |
| RunRecords.RunningIsUntouched | src/agent/agent-loop.service.ts:72-93 | However executors raced and crashed, a run is RUNNING if and only if no executor's status has reached Postgres, and then both stores are as created but for the sandbox id |
| RunRecords.NeverRunsAgain | src/agent/agent-loop.service.ts:72-93 | In every interleaving a run that has left RUNNING never returns to it |
| RunRecords.StrandedIsForever | src/agent/agent-runs.service.ts:74-131 | When create is over or its process died and there is no job, no later action touches record, mirror, rows or channel |
| RunRecords.DeadCreateStrands | src/agent/agent-runs.service.ts:74-84 | A create that dies before the mirror write leaves a RUNNING run in Postgres alone after every later history |
| RunRecords.RejectedAuditStrands | src/agent/agent-runs.service.ts:108-114 | A create whose audit write rejects leaves a RUNNING run in both stores after every later history |
| RunRecords.FinishedRunsAreInert | src/agent/agent-loop.service.ts:72-78 | Re-executing a finished run, any number of times and in any interleaving, changes no row, document, record, event or sandbox |
| SequentialRuns.ReturnsInAgreement | src/agent/agent-loop.service.ts:79-107 | When `execute` starts alone on a RUNNING run, whatever the executors before it did, and returns normally, Postgres and the mirror hold the same status, error and finishedAt, and the last event before the end marker is run_completed if and only if it is COMPLETED, run_cancelled if and only if it is CANCELLED, run_failed with the stored error if and only if it is FAILED |
| SequentialRuns.StoredStatusIsExplained | src/agent/agent-loop.service.ts:84-93 | Both stores then hold FAILED exactly when an exception was caught, with its message; else CANCELLED exactly when a check saw the key; else COMPLETED; and FAILED whenever every reply asked for tools |
| SequentialRuns.StoresAgreeUnlessSomeoneLags | src/agent/agent-loop.service.ts:216-228 | With one live executor at a time, with or without a job, the stores disagree if and only if a write to Postgres was not followed by its write to the mirror: one of create, or some executor's last status |
| SequentialRuns.ExecutorsKeepInStep | src/agent/agent-loop.service.ts:216-228 | Once the job exists the stores disagree if and only if some executor's last status reached Postgres and not the mirror |
| SandboxRecords.SandboxIdsAgree | src/agent/agent-loop.service.ts:208-214 | With one live executor at a time since the creation Postgres and the mirror name different sandboxes if and only if the executor whose sandbox Postgres names stored it there and not in the mirror |
| SandboxRecords.SandboxIdsDiffer | src/agent/agent-loop.service.ts:208-214 | With one live executor at a time since any moment at which nobody worked on the RUNNING run: they differ if and only if the executor whose sandbox Postgres names, if it started since, stored it there and not in the mirror, and otherwise if they differed at that moment |
| SandboxRecords.NamesObtainedInRun | src/agent/agent-loop.service.ts:208-214 | In every interleaving both stores name only sandboxes that were obtained |
| SandboxCrossing.CrossedSandboxesStay | src/agent/agent-loop.service.ts:208-214 | An executor that starts alone and returns normally can leave different sandboxes in the two stores with nobody's mirror write missing: those two earlier executors wrote crosswise |
| SequentialRuns.FailedIsFinal | src/agent/agent-loop.service.ts:84-93 | With one live executor at a time no action changes the record of a FAILED run, whether an executor or create failed it |
| SequentialRuns.TerminalWriter | src/agent/agent-loop.service.ts:72-93 | While a terminal run is still being worked on, the executor at work is the one that wrote its status, and may only be about to write FAILED over another status |
| SequentialRuns.OnlyTheSameExecutionRevises | src/agent/agent-loop.service.ts:84-93 | COMPLETED and CANCELLED change only to FAILED, in the catch block of the execution that wrote them, with the error of a finishRun write or terminal publish of its own that rejected |
| Cancellation.CancelStopsCalls | src/agent/agent-loop.service.ts:122-135 | While the cancel key lives the model calls an executor has started, settled or in flight, do not grow |
| Cancellation.KeyIsTheLastWord | src/agent/agent-loop.service.ts:47-57 | In every history the cancel key is present if and only if a request set it and it has neither expired nor been deleted by an executor's finally since |
| Cancellation.CancelEndsRun | src/agent/agent-loop.service.ts:122-159 | A cancelled run ends CANCELLED, unless the iteration under way when the key was set completed it, or was the last allowed one and ended in the iteration limit, or an operation of the try block rejected |
| Divergence.CrashDivergesForGood | src/agent/agent-loop.service.ts:216-228 | Every crash of a sole executor between the two writes of finishRun leaves its status in Postgres and a different one in the mirror after every later history |
| Divergence.CrashCanStrand | src/agent/agent-loop.service.ts:216-228 | Such a crash happens: FAILED in Postgres, RUNNING in the mirror, for good |
| Divergence.RacingExecutorsDisagree | src/agent/agent-loop.service.ts:216-228 | Two executors can both return normally, without a failed store write, and leave different errors in the two stores |
| AgentBackend.OthersCommute | src/agent/agent-loop.service.ts:64-108 | What others do does not depend on whether this executor is there, so its operations can be proved against their interference |
| AgentBackend.Backend.constructor | src/agent/agent-runs.service.ts:115-130 | The backend of an accepted run, with the worker at the start of execute: where Execute may be called |
| AgentBackend.Backend.CreateStep | src/agent/agent-loop.service.ts:235-237 | The row joins the table as it was met, unless the index is taken, and nothing else changes; a rejected create may have left it so; next comes the document, or the exception |
| AgentBackend.Backend.AddStep | src/firebase/firestore-mirror.service.ts:65-72 | The document joins those met, unless it exists, and nothing else changes; next comes the event, or the exception |
| AgentBackend.Backend.UpdateRunFinish | src/agent/agent-loop.service.ts:221-225 | Status, error and date replace those of the record met, leaving its sandbox id and everything else; an unknown run is refused |
| AgentBackend.Backend.UpdateRunSandbox | src/agent/agent-loop.service.ts:209-212 | The sandbox id replaces that of the record met, leaving everything else |
| AgentBackend.Backend.MirrorFinish | src/firebase/firestore-mirror.service.ts:58-63 | The same status, error and date are merged into the document met, leaving its sandbox id and everything else |
| AgentBackend.Backend.MirrorSandbox | src/firebase/firestore-mirror.service.ts:58-63 | The sandbox id is merged into the document met, leaving its status and everything else |
| AgentBackend.Backend.CreateSandbox | src/agent/agent-loop.service.ts:81 | A new sandbox joins the ledger met as this executor's and is live, or nothing changes and the exception is caught |
| AgentBackend.Backend.KillSandbox | src/agent/sandbox/sandbox.service.ts:94-96 | The executor's own sandbox, and no other, leaves the live ones; a rejection is swallowed |
| AgentBackend.Backend.Publish | src/agent/agent-events.service.ts:94-107 | The event is appended to the channel met, or, when it rejects, nothing changes |
| AgentBackend.Backend.DeleteKey | src/agent/agent-loop.service.ts:106 | The cancel key is gone and nothing else changes; the executor returns, or throws what is pending or the rejection |
| AgentLoop.AgentLoopService.Execute | src/agent/agent-loop.service.ts:64-108 | From the first lookup on, everything `execute` and the other workers do is one continuation of the run of the protocol, in which this executor takes its steps; it returns or throws exactly as that executor ends, what it throws is the message with which one of its own operations rejected, and the step indices are dense then |
| AgentLoop.AgentLoopService.CatchFinally | src/agent/agent-loop.service.ts:84-107 | With an exception the run is marked FAILED and run_failed told; finally runs either way, and what leaves is the rejection of an operation in catch or finally, never the exception caught |
| AgentLoop.AgentLoopService.Try | src/agent/agent-loop.service.ts:79-93 | The try block ends in finally with a sandbox, or in the catch block with the first exception and whatever sandbox there is |
| AgentLoop.AgentLoopService.Finally | src/agent/agent-loop.service.ts:94-107 | finally kills the sandbox if there is one, whatever comes of it, then ends the stream; an exception of its own replaces the pending one |
| AgentLoop.AgentLoopService.EndStream | src/agent/agent-loop.service.ts:105-106 | The end marker, then the cancel key; a failed publish leaves the key |
| AgentLoop.AgentLoopService.ForgetCancellation | src/agent/agent-loop.service.ts:106 | The cancel key is deleted last; then `execute` returns, or the exception of the catch block goes on |
| AgentLoop.AgentLoopService.RunLoop | src/agent/agent-loop.service.ts:110-206 | The loop leaves by cancellation, completion, an exception or the iteration limit, each time where the protocol's executor is |
| AgentLoop.AgentLoopService.OpenRun | src/agent/agent-loop.service.ts:115-120 | run_started is published before the conversation is started and the rows are counted |
| AgentLoop.AgentLoopService.Iterate | src/agent/agent-loop.service.ts:122-200 | The cancellation check comes before every model call; a key seen ends the run as CANCELLED |
| AgentLoop.AgentLoopService.Round | src/agent/agent-loop.service.ts:129-200 | One model call and the work on its reply: messages, step index and iteration afterwards, or the way out |
| AgentLoop.AgentLoopService.FollowReply | src/agent/agent-loop.service.ts:156-200 | A reply that does not ask for tools completes the run; one that does has every tool used and its answers appended, and the next iteration begins |
| AgentLoop.AgentLoopService.RecordTexts | src/agent/agent-loop.service.ts:139-154 | The loop over blocks records and publishes every text and gathers exactly the reply's tool uses in order |
| AgentLoop.AgentLoopService.RecordText | src/agent/agent-loop.service.ts:141-150 | A text takes one step index; its row, document and event come in that order, and the loop goes on behind the block |
| AgentLoop.AgentLoopService.UseTools | src/agent/agent-loop.service.ts:162-199 | The loop over tool uses records a call and a result for each and gathers one answer for each |
| AgentLoop.AgentLoopService.UseTool | src/agent/agent-loop.service.ts:163-198 | One tool use takes two step indices and yields the answer with its id, or the first exception |
| AgentLoop.AgentLoopService.RecordCall | src/agent/agent-loop.service.ts:164-174 | The call is stored and published before the tool runs |
| AgentLoop.AgentLoopService.RunAndRecord | src/agent/agent-loop.service.ts:176-198 | The tool's output, or the exception it throws |
| AgentLoop.AgentLoopService.RecordResult | src/agent/agent-loop.service.ts:179-198 | The result takes one step index under the tool's name, is published, and is collected under the tool use's id |
| AgentLoop.AgentLoopService.FinishAndTell | src/agent/agent-loop.service.ts:124-126 | finishRun, then run_completed for COMPLETED, run_cancelled for CANCELLED and run_failed with the error for FAILED, on every way out of the loop and in the catch block |
| AgentLoop.AgentLoopService.RecordAndEmit | src/agent/agent-loop.service.ts:165-174 | recordStep, then the step's event |
| AgentLoop.AgentLoopService.RecordStep | src/agent/agent-loop.service.ts:230-245 | The row before its document; a rejected row is not mirrored |
| AgentLoop.AgentLoopService.SetRunSandbox | src/agent/agent-loop.service.ts:208-214 | Postgres before the mirror; a rejected first write stops the second |
| AgentLoop.AgentLoopService.FinishRun | src/agent/agent-loop.service.ts:216-228 | Postgres before the mirror, with one date for both |
| AgentRuns.AgentRunsService.CreateRun | src/agent/agent-runs.service.ts:55-131 | A job is enqueued exactly when the run is returned, and then both stores hold it as RUNNING and none of the call's operations rejected; it throws only the message of one of them that did, and says at which it was; either way create is then over; how each store is left for each operation whose exception is thrown, and that they disagree exactly when the writes that took effect are not balanced |
| AgentRuns.CancelRequest.Cancel | src/agent/agent-runs.service.ts:192-209 | Under interference of executors and other requests before every operation: what it answers for every way its operations settle: a run not found or not RUNNING when looked at is refused and no key is written for it; otherwise the key is written after that look, unless the write has no effect, and it throws exactly what rejected first |
| Throttler.AdmitsAtMostTwiceLimit | src/redis/redis-throttler.storage.ts:13-31 | Every history of calls with a non-decreasing clock has at most 2*limit-1 unblocked calls of one key in any half-open interval of length ttl |
| Throttler.BoundIsReached | src/redis/redis-throttler.storage.ts:13-31 | For every limit and every ttl of at least 2 ms a history reaches that bound |
| Throttler.WithoutBlockNothingIsLimited | src/redis/redis-throttler.storage.ts:26-31 | With a block duration of 0 every call of every history is let through |
| Throttler.UnblockedStartsAfresh | src/redis/redis-throttler.storage.ts:13-31 | The first unblocked call after a blocked one reports totalHits 1, whichever of block and window ran out first |
| Throttler.BlockEndsAsAnnounced | src/redis/redis-throttler.storage.ts:13-62 | Until the announced end of a block the next call is blocked with the rest of it, and after timeToBlockExpire seconds the block is gone |
| ThrottlerWindows.RepliesAreTheWindows | src/redis/redis-throttler.storage.ts:6-32 | Every reply of every history, in the times of the calls: while calls are barred the open window's count and the time left; otherwise the count of the window with this call in it, the rest of that window, and blocked for `block` exactly when it is past the limit |
| ThrottlerWindows.BlockLastsAsConfigured | src/redis/redis-throttler.storage.ts:26-31 | A call that meets no block key is blocked exactly when its window is past the limit and a block duration is set; then blockTtl is that duration and the key dies exactly then |
| ThrottlerWindows.KeysHoldTheWindow | src/redis/redis-throttler.storage.ts:13-29 | In every history the hits key holds the number of calls counted in the window and dies ttl after the first of them; the block key dies when calls are barred no more |
| ThrottlerWindows.WindowSpans | src/redis/redis-throttler.storage.ts:19-24 | A window counts calls in order, all within ttl of its first |
| ThrottlerWindows.RecordOfCountedCall | src/redis/redis-throttler.storage.ts:38-63 | The record of a call that meets no block, field by field, with times rounded up to whole seconds |
| ThrottlerWindows.RecordOfBarredCall | src/redis/redis-throttler.storage.ts:38-63 | The record of a blocked call: the rest of the block, and the open window's count and rest, or zero |
| ThrottlerWindows.SecondCallIsBlocked | src/redis/redis-throttler.storage.ts:13-63 | One call a minute with a minute's block: a second call after a second is blocked for 60 seconds |
| Throttler.KeysAreDistinct | src/redis/redis-throttler.storage.ts:45-46 | Under one throttler name no two of the Redis keys coincide |
| Throttler.NamesCanCollide | src/redis/redis-throttler.storage.ts:45-46 | Under different throttler names they can |
| Throttler.KeysAreIndependent | src/redis/redis-throttler.storage.ts:38-63 | After any calls for any keys, what Redis holds for one key is what its own calls alone would have left |
| Throttler.EachKeyIsLimited | src/redis/redis-throttler.storage.ts:13-31 | In every history of calls for many keys at most 2*limit-1 unblocked calls of each key fall in any half-open interval of length ttl |
| Throttler.EachKeyStartsAfresh | src/redis/redis-throttler.storage.ts:13-31 | In every history of calls for many keys the first unblocked call of a key after a blocked one reports totalHits 1 |
| Throttler.RedisThrottlerStorage.Eval | src/redis/redis-throttler.storage.ts:6-32 | The script's commands leave the two keys and the reply of the script's specification and touch no other key |
| Throttler.RedisThrottlerStorage.Increment | src/redis/redis-throttler.storage.ts:38-63 | The record is the key's own reply with times in seconds rounded up |
| Utf8.DecodeInvertsEncode | src/agent/sandbox/sandbox.service.ts:34-36 | Decoding inverts encoding on all Unicode text (section 3 of RFC 3629) |
| Utf8.DecodeTakesScalar | src/agent/sandbox/sandbox.service.ts:34-36 | Decoding takes exactly one encoded character off the front of any bytes |
| Utf8.DecodeCutScalar | src/agent/sandbox/sandbox.service.ts:34-36 | A proper prefix of an encoded character decodes to one U+FFFD (section 3.9 of the Unicode Standard) |
| Truncation.DecodeCut | src/agent/sandbox/sandbox.service.ts:34-36 | Bytes cut anywhere decode to the whole characters before the cut, and one U+FFFD exactly when it splits one |
| Truncation.TruncateKeepsLongestPrefix | src/agent/sandbox/sandbox.service.ts:30-37 | Text that fits is unchanged; other text becomes its longest fitting prefix of whole characters, one U+FFFD exactly when the cut splits a character, and the marker |
| Truncation.TruncatedSize | src/agent/sandbox/sandbox.service.ts:30-37 | The result is at most two bytes over the cap, and the marker |
| Truncation.LongOutputEndsInMarker | src/agent/sandbox/sandbox.service.ts:30-37 | Tool output over the cap is its longest fitting prefix, any U+FFFD, and "\n[output truncated at 65536 bytes]", character by character |
| Decimal.Digits | src/agent/sandbox/sandbox.service.ts:36 | A numeral of decimal digits that reads, from left to right, as the number, without a leading zero |
| Decimal.NumeralIsUnique | src/agent/sandbox/sandbox.service.ts:36 | It is the only such numeral |
| Utf8.Samples | src/agent/sandbox/sandbox.service.ts:34-36 | Encodings of section 7 of RFC 3629, and an ill-formed surrogate decoded |
| Truncation.ToolOutputSize | src/agent/sandbox/sandbox.service.ts:8-37 | For the cap of 65536 the marker takes 34 bytes and the result at most 65572 |
| Paths.SplitInvertsJoin | src/agent/tools/workspace-path.ts:15 | Splitting inverts joining on slash-free segments |
| Paths.FoldReduced | src/agent/tools/workspace-path.ts:15 | Folding a path over a rooted stack, or reducing the path on its own first, gives the same stack |
| WorkspacePath.NormalizeFirstChangesNothing | src/agent/tools/workspace-path.ts:15 | Normalising a relative path first never changes what it resolves to |
| WorkspacePath.ResolvedSegments | src/agent/tools/workspace-path.ts:15 | Resolving a relative path folds its segments over the directory's, and the result is canonical |
| WorkspacePath.PrefixTest | src/agent/tools/workspace-path.ts:16 | On joined segments the string test holds exactly when one list of segments is a prefix of the other |
| WorkspacePath.AcceptsExactlyInside | src/agent/tools/workspace-path.ts:8-20 | For a canonical workspace other than the root a path is accepted exactly when it is relative and resolves inside, and the result has no empty, "." or ".." segment |
| WorkspacePath.RootAcceptsOnlyItself | src/agent/tools/workspace-path.ts:16-18 | With the root as workspace exactly the paths that resolve to the root are accepted |
| WorkspacePath.StringTestMeansInside | src/agent/tools/workspace-path.ts:16-18 | For a canonical workspace the string test means "inside" if and only if the workspace is not the root or the path resolves to it |
| WorkspacePath.AcceptedExactly | src/agent/tools/workspace-path.ts:8-20 | Which paths are accepted for every workspace string: those inside a canonical one, only the root under the root, all relative ones for the empty string, none for any other |
| WorkspacePath.RootRejectsAName | src/agent/tools/workspace-path.ts:16-18 | A concrete path inside the root workspace that is turned down |
| PathLaws.DotDotLeavesADirectory | src/agent/tools/workspace-path.ts:15 | ".." leads from /D/n to /D, and from the root to the root |
| PathLaws.ResolveClimbs | src/agent/tools/workspace-path.ts:15 | k times ".." and then names lead k directories up, the root at most, and down along the names |
| PathLaws.NameAndDotDotCancel | src/agent/tools/workspace-path.ts:15 | A name followed by ".." anywhere in a path can be replaced by "." |
| PathLaws.EmptyAndDotLeadNowhere | src/agent/tools/workspace-path.ts:15 | "." and empty segments anywhere in a path can be left out |
| PathLaws.EveryPathIsAClimb | src/agent/tools/workspace-path.ts:15 | Every relative path leads, from every directory, where some ".." and then names lead |
| PathLaws.NormalForm | src/agent/tools/workspace-path.ts:15 | A normalised relative path is some ".." and then names, or ".", with the path's trailing slash, and these say where the path leads from every directory |
| PathLaws.RelativeDirectory | src/agent/tools/workspace-path.ts:15 | A relative directory is taken from the working directory |
| PathLaws.ClimbIsAccepted | src/agent/tools/workspace-path.ts:8-20 | In a canonical workspace other than the root a path of k ".." and then names is accepted exactly when the names lead back through the directories left, as the path they lead to; otherwise with the message of an escape |
| PathLaws.NamesInsideDotDotOutside | src/agent/tools/workspace-path.ts:15-19 | Names alone are accepted as they are, ".." alone, however often, never |
| PathLaws.AbsoluteIsTurnedDown | src/agent/tools/workspace-path.ts:12-18 | Exactly the paths that start with a slash are turned down as not relative; every other rejection is an escape |
| PathLaws.OutsideTheToolsWorkspace | src/agent/tools/workspace-path.ts:16-18 | ../etc/passwd is rejected under /home/user |
| PathLaws.SiblingIsOutside | src/agent/tools/workspace-path.ts:16-18 | ../user2/x is rejected under /home/user |
| PathLaws.BackInside | src/agent/tools/workspace-path.ts:15-19 | ../user/x is accepted under /home/user as /home/user/x |
| Pagination.PageAt | src/agent/agent-runs.service.ts:180-189 | From any position a page is the next rows and has no cursor exactly when they are the last |
| Pagination.PagesArePrefix | src/common/pagination.ts:25-36 | With any limits and any appends between fetches the pages concatenate to an exact prefix of the transcript |
| Pagination.LastPageCompletes | src/common/pagination.ts:25-36 | When nextCursor is null the pages are the whole transcript as it was at that fetch |
| Pagination.PagesNeeded | src/common/pagination.ts:25-36 | A fixed table of n rows is read in exactly max(1, ceil(n/limit)) pages |
| Pagination.UnknownCursorIsEmpty | src/agent/agent-runs.service.ts:180-189 | A cursor that names no row gives an empty page without a further cursor |
| TranscriptReads.PagesFollowTheRun | src/agent/agent-runs.service.ts:173-190 | Paging through a run whose executors write, crash and race in the meantime: item k read is the step stored at index k, and a page without a cursor leaves no row of that moment unread |
| AgentEvents.ChannelNamesRun | src/agent/agent-events.service.ts:61-64 | A channel names a run if and only if it is that run's channel |
| AgentEvents.SubjectsInMapAreOpen | src/agent/agent-events.service.ts:60-117 | In every history no subject in the map is completed, two runs never share one, and every subject out of the map is completed |
| AgentEvents.ObserverReceivesItsRun | src/agent/agent-events.service.ts:60-117 | An observer receives exactly its run's well-formed events delivered after it attached, in order, up to the first end marker since the run was observed, and completes with that marker |
| AgentEvents.CommandsAlternate | src/agent/agent-events.service.ts:84-92 | Per channel the commands are subscribe and unsubscribe in turn, the last one subscribe exactly when the map holds the run, which is when it was observed after its last end marker |
| AgentEvents.AgentEventsService.ObserveRun | src/agent/agent-events.service.ts:109-117 | Returns the run's open subject, making and subscribing it only when there is none |
| AgentEvents.AgentEventsService.AttachTo | src/agent/agent-events.service.ts:116 | A new observer of the handle's subject, completed at once if the subject is |
| AgentEvents.AgentEventsService.HandleMessage | src/agent/agent-events.service.ts:60-82 | One message does to map, subjects, observers and commands what one delivery of the specification does |
| AgentEvents.AgentEventsService.RemoveSubject | src/agent/agent-events.service.ts:84-92 | Unsubscribes exactly when the map held the run |
| LiveStream.ClientSeesTheRun | src/agent/agent-events.service.ts:60-117 | A client that observed a run while nobody worked on it sees the executors that follow one after the other, crashes and re-executions included: of each run_started, the events of its stored steps in order with at most the last missing, and perhaps the terminal event: run_completed, run_cancelled or run_failed with the error exactly when that is the status stored; its stream completes with the first end marker |
| LiveStream.ChannelIsSequenced | src/agent/agent-loop.service.ts:89-105 | With one live executor at a time the channel is what they published, one executor after the other |
| Memberships.KeysCoincide | src/auth/membership-cache.service.ts:31-33 | Two keys coincide if and only if the pairs are equal or a colon moves between organization id and user id |
| Memberships.KeysAreInjective | src/auth/membership-cache.service.ts:31-33 | Keys are injective when user ids, or organization ids, have no colon |
| Memberships.InvAlways | src/auth/membership-cache.service.ts:35-62 | In every interleaving of lookups, additions, new organizations and expiries rows are only created, and every cached or in-flight role is its row's |
| Memberships.CacheNeverLies | src/auth/membership-cache.service.ts:13-17 | Whatever is cached for a pair is the role its row has |
| Memberships.AnswersAreTrueDuringTheCall | src/auth/membership-cache.service.ts:35-58 | Every answer equals the table at some moment of the call: a role when it returns, "no membership" when it began |
| Memberships.AdditionsAreExclusive | src/organizations/organizations.service.ts:99-110 | Of racing additions of one member at most one succeeds |
| Memberships.SlugsAreUnique | src/organizations/organizations.service.ts:27-45 | However creations race, no two organizations have one slug |
| Memberships.FoundRolesAreCached | src/auth/membership-cache.service.ts:39-57 | A lookup that finds a row caches its role, and the next lookup answers with it from the cache alone; one that finds none caches nothing |
| Memberships.ExpiredRolesAreReadAgain | src/auth/membership-cache.service.ts:39-51 | A lookup that begins after the entry expired answers from the table |
| Memberships.AdditionsInvalidate | src/auth/membership-cache.service.ts:60-62 | An addition that succeeds has dropped the entry of the member |
| Memberships.ColonsBreakAnswers | src/auth/membership-cache.service.ts:31-33 | With colons in both ids a lookup of a pair without a row can answer with another pair's role |
| MembershipServices.MembershipCacheService.Get | src/auth/membership-cache.service.ts:35-58 | Under interference before every await, a role is the row's when the call returns and "no membership" was true when it began; it throws only when one of its own operations rejects |
| MembershipServices.OrganizationsService.AddMember | src/organizations/organizations.service.ts:92-111 | Success means a new row with the role asked for, created by this call; a member already there is reported as such, when no operation rejects; it throws only when one does, or there is no such organization, or a row came in between; no row that was there is changed |
| MembershipServices.OrganizationsService.Create | src/organizations/organizations.service.ts:23-51 | Success means the creator's OWNER row is new; a slug in use is reported as taken, unless an operation rejects; it throws only when one does, or when id or slug were taken in between; no row that was there is changed |

## Modelling notes

- `Journal`, the `writer` of a row, the `sender` of a message and the `adder` of a membership are history: the program
  does not keep them, the properties are about them.
- A rejected store write may have taken effect (`applied`); a rejected publish, enqueue or sandbox creation has not.
- `finishRun` takes its date before its first write; the model lets that write's outcome carry it.
- A tool's input is its JSON text. Model replies are arbitrary finite block lists with a flag for the stop reason
  `tool_use`; blocks that are neither text nor tool_use are `Opaque`.
- Text is a sequence of Unicode scalar values. `node:path` is modelled lexically, for POSIX.
- An operation of an executor that crashed never takes effect after the crash: a write in flight at that moment has
  either landed before it or is lost. So with one live executor at a time no write of a dead worker arrives late.
- A Redis key is gone from its deadline on. A block key or cancel key may go at any time it may expire.
- `runLoop` and `execute` are written as several private methods, one for each part of the source, because each is
  proved on its own.
- Subjects are numbers into the list of subjects ever made; an observer is a subscription, made at any time after
  `observe` returned.
- The interference of `AgentBackend` and `MembershipServices` is any sequence of actions of other processes. How a call's
  own operations settle is a parameter of the methods of `MembershipServices` and of `Cancel`, and is recorded in the
  actions elsewhere.
- A conversation's texts, tool uses and outputs are those of the actions: `Heard` reads them off without looking at what
  an executor makes of them.

## Left out

- Interleavings.EveryRunIsGood: one run at a time; runs share no rows, documents, channel, key or sandbox.
- AgentEvents.ObserverReceivesItsRun: the subscribe command is taken to succeed, and JSON payloads other than the events and the end marker are not modelled: the source passes other objects on, and `null` makes it throw.
- Pagination.PagesArePrefix: the cursor is one a page returned; `UnknownCursorIsEmpty` says what any other id gives.
- MembershipServices.OrganizationsService.AddMember: ends with the cache invalidation; the mirror and audit writes after it do not touch table or cache.
- MembershipServices.OrganizationsService.Create: starts with a creator who exists and ends with the transaction.
- Metrics, logging, audit contents, session scope and role checks, request validation.
- The insides of Prisma, Firestore, ioredis, BullMQ, E2B, RxJS and the Anthropic client; a job is a possibly repeated call of `execute`.
- Tool bodies and the tool registry beyond a result with an error flag, or an exception.
- Lone surrogates in JavaScript strings, symbolic links in the sandbox, Windows paths.
- Wall-clock dates other than the throttler's clock, the equality of `finishedAt` and the write it belongs to.
- Module shutdown in the event service, API keys, token verification, sessions and their messages.
- Paging of runs with `list`, whose order is not the order of insertion.
