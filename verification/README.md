# A durable agent loop, proved

The repository runs an agent that can be killed at any database commit and
resumed: a loop of model turns and tool batches over an SQLite store
(`agent/runtime.py`, `agent/run.py`), a tool executor with an execution guard
(`agent/executer.py`), a turn validator with a retrying, circuit-broken model
client (`agent/validate.py`), a token-bounded conversation memory
(`agent/message.py`) and its token counter (`mockllm/tokenizer.py`). This
project models these and proves what they promise of every run.

## How the model is built

**The store and its protocol.** `Events` has the event log with its unique keys
and the questions the loop asks of it. `Protocol` has the durable state (row,
log, execution rows, sent emails) and every commit with a guard on durable facts
alone, so that a kill is simply a point after which another process goes on
committing. A `Path` is a history of durable states, one a commit. `Invariant`
proves commit by commit what all reachable states satisfy, among it a grammar
that every log obeys; `History` reads the theorems about all histories off it,
`Checking` those about progress checks, `Order` when the order within a step breaks,
and `Ending` why runs end. `Witness` has the runs that show what can go wrong.

**The code that commits.** `Database` is the store as a class whose methods are
transactions; a counter of remaining lives lets the environment kill the process
before any of them. `Guard` checks, at each transaction, that the protocol allows
it. `Executor`, `ToolBatch`, `Validator` and `Runtime` are the program: the batch
executor with its parallel reads, undo log and emails, the model turn, and the
loop. Whatever they do and wherever they are killed, `Runtime.AgentRuntime.Run`
leaves the store's history a `Path`, so all theorems of `History` hold of it. The
model, the tool bodies, the host's faults and the schedule of the parallel workers
are free choices. `Resume` rebuilds the memory from the log; `Workspace` and
`Batch` have the files, the undo log and what a batch may report.

**The memory.** `Tokenizer`, `Text`, `Window` and `Memory` are functions on message
lists and, as in the source, classes that update their fields in place, each method
proved against its function. `Shape`, `Facts` and `Isolation` prove the laws of
these functions over all histories of operations. `Breaker` is the circuit breaker
and the retry loop, with real-valued times.

## What the proofs say about the code that its documentation does not

- *A repeated email blocks its run for good.* An email's result event is keyed
  without its step (`agent/runtime.py:1055-1056`), but recovery looks for results at
  the current step only (`agent/runtime.py:1092-1098`). `History.RecoversIffRepeats`:
  between batches a call is left to recover exactly when its batch asks for an email
  that an earlier step answered. `History.RepeatedEmailBlocks`: such a step is never
  left, in any continuation. `Witness.StuckReachable` gives the run, commit by commit
  and without any kill: two turns that ask for one email, whatever they count, if the
  limits allow two batches to run. `Runtime.AgentRuntime.RunRecovered`: once that
  batch has been executed, each round comes back to the very same state, and
  `Runtime.AgentRuntime.Run` never ends the run. Without such an email the row changes
  at most three times a step and twice more over all processes
  (`History.RowChangesBounded`), and only a process granted no more transactions than
  the responses in its log account for is killed (`Runtime.AgentRuntime.Run`).
- *A start may follow a result of its own step*, against the order that holds
  otherwise (`History.StagesInOrder`). `Witness.OutOfOrderReachable` gives the run: a
  second batch of some call and the repeated email is recovered as the email alone,
  which is announced anew in the first place. `Order.FirstRecoveryBreaksOrder`: the
  first recovery of a batch does this if and only if a call of it that has its result
  at the step stands before one that has none; `Order.RoundBreaksOrder` is the
  condition for any later one.
- *A failed batch may report a write as ok.* A write skipped after the rollback is
  answered from the row under its key, which is corrected only later
  (`agent/runtime.py:559-568`, `agent/runtime.py:607-624`).
  `ToolBatch.BatchExecutor.ExecuteToolCalls` says exactly which writes those are:
  the ones that repeat, after the failure, the key of a write that was taken back.
  `ToolBatch.RepeatedWriteReportedOk` is the smallest batch with one: of a write, one
  that fails, and the first again, the third is reported ok in every outcome. With
  distinct keys there is none (`ToolBatch.FailedBatchReportsNoWrite`).
- *A failing write may still change its target.* `write_text` opens the file, which
  truncates it, before the content is encoded or written, and a failing write is not
  in the undo log (`agent/runtime.py:573-577`). The model lets a write that fails with a
  fault of the host, or a restore that fails, leave anything at its own place, and
  nothing else anywhere (`Workspace.HostWorkspace.WriteText`). The results tell where:
  a failed batch leaves every place as it found it but those where one of its writes
  reports such a fault, and all files if none does (`ToolBatch.FailedBatchRestores`).
- *Whitespace normalisation loses exactly the spaces that the token counter counts
  as symbols* (no-break spaces and the like), so it preserves the count if and only
  if there are none (`Text.NormaliseCount`).
- *A batch may run without a progress check*: parsing and checking are two commits
  (`agent/runtime.py:432-449`), and a resumed process goes on with the batch.
  `Runtime.AgentRuntime.Run` says when: a step that a process starts calls of has its
  check if and only if the process did not take it up parsed and unchecked, and such a
  step is never checked later. Of as many equal batches in a row as the limit says, one
  is not started or not checked (`Checking.NoLongRepetition`), so the process that
  creates a run starts fewer (`Checking.CrashFreeBounded`). `Witness.StuckUnchecked`
  runs one batch and parses another without any check, whatever the limit.
- *A message that does not fit the token budget alone can make a run unfinishable.*
  Memory is rebuilt outside the `try` (`agent/runtime.py:289-293`), and the user's
  request, a text of the model and a tool result are all logged before the memory may
  refuse them (`agent/validate.py:254-262`, `agent/runtime.py:642-656`).
  `Resume.FromEvents` raises if and only if some logged message is that large;
  `Runtime.AgentRuntime.Run` then raises and leaves the run as it was, and
  `Runtime.AgentRuntime.Sessions` does so for ever. The request alone does it from the
  first commit (`Witness.OversizeRequest`), a text of the model with one kill
  (`Witness.OversizeReachable`).

The remaining lookups and transactions are methods against functions of the same
shape and are not listed below: `Runtime.EventPayload`, `CostSoFarOf`,
`LatestProgressCheck` and `RecordedResponseToProcess` (`agent/runtime.py:815-831`,
`agent/runtime.py:995-1000`, `agent/runtime.py:1114-1151`), and the methods of
`Database.AgentDatabase` that set the row or one execution row
(`agent/run.py:164-276`, `agent/run.py:398-438`).

## Model

| member | source | states |
|---|---|---|
| Invariant.NextKeeps | agent/runtime.py:300-470 | Every commit the loop can make keeps the invariant: the grammar of the log, closed earlier steps, row, budget and tables in agreement. |
| History.PathInvariant | agent/runtime.py:300-470 | The invariant holds of every durable state of every history, across any kills and resumes. |
| History.PathLater | agent/run.py:207-316 | Along a history the log only grows, steps never go back, emails and email outcomes never change, and a finished run stays as it is. |
| History.ExactlyOnceEmail | agent/run.py:482-539 | One row a logical email; it holds that email's own address, subject and body, stays, and exists if and only if the email's execution row is completed; the first outcome of an email is final; only step 1 ever asked for a sent email. |
| History.SendMoment | agent/runtime.py:583-601 | The commit that sends happens in step 1 before any tool result, adds one row with the three fields of its call, and every call of its batch that is no email has a completed row without error then, also when a crash lies between. |
| History.NoCallLost | agent/runtime.py:300-451 | Each earlier step has exactly one request, response, charge and parse, and a result at that step for every parsed call. |
| History.KeysUnique | agent/run.py:298-316 | No two events of a log share a unique key. |
| History.StagesInOrder | agent/runtime.py:332-451 | Within a step: request, response, text, charge, parse, check, starts, results, across crashes; the only exception is a start after a result when the batch repeats an email of an earlier step, and `Order` says exactly when it occurs. |
| Order.FirstRecoveryBreaksOrder | agent/runtime.py:306-317 | In every state between batches of every history, if the step was not recovered before: recovering its calls logs a start after a result of the step if and only if a call of its batch with a result there stands before one without. |
| Order.RoundBreaksOrder | agent/runtime.py:484-501 | Announcing calls logs a start after a result of the step if and only if one of them is not announced at its new place and some call of the step has a result. |
| Order.OwnUntilRecovered | agent/runtime.py:484-501 | In every history, a step whose batch was pending only as a whole has no starts but its batch's own. |
| Witness.OutOfOrderReachable | agent/runtime.py:306-330 | The crash-free run, commit by commit, that does so: a second batch of another call and the email of the first, for all costs within budget and limits that allow two batches. |
| History.ResultsAfterAllStarts | agent/runtime.py:484-501 | Before any result of a batch stands a start of every one of its calls. |
| History.FinishedAbsorbing | agent/run.py:265-276 | Finished if and only if the log has an end event, which is then the only one; nothing is committed afterwards. |
| History.IncompleteNeverRuns | agent/runtime.py:377-393 | A turn that is partial and shows fewer calls than it announced, or announced none, is never parsed, checked, started or answered, in any continuation. |
| History.BudgetConserved | agent/runtime.py:964-1000 | Each recorded total, of a charge and of a step's start, is the sum of all costs so far; a step is charged once; all charges but the last are within budget; nothing is parsed, started or answered over budget. |
| History.RepeatsIsRun | agent/runtime.py:774-795 | The recorded count is the length of the run of checked batches, ending with this one, whose parsed calls agree in tool and arguments position by position, whatever their ids. |
| Events.SameDigest | agent/runtime.py:809-812 | Two batches have one digest if and only if they have the same tools with the same arguments, position by position; the ids of the calls do not count. |
| History.TerminalCheckIsFinal | agent/runtime.py:797-807 | After a check at the limit only the step limit and the end can follow, also on resume. |
| History.StartsBelowLimit | agent/runtime.py:303-305 | A batch starts only while of the last checked batches, as many as the limit says, one differs from the last in a tool or an argument. |
| Checking.NoLongRepetition | agent/runtime.py:774-807 | In no log are as many consecutive steps as the limit says all checked and started with batches of the same tools and arguments. |
| Checking.CrashFreeBounded | agent/runtime.py:774-807 | The process that creates a run never starts as many batches of the same tools and arguments in a row as the limit says. |
| Ending.PathBarred | agent/runtime.py:303-305 | In every history, a live run with a check at the limit has its batch still pending. |
| History.TurnsBounded | agent/runtime.py:300-374 | A run requests at most max_steps turns over all its processes, and starts or answers calls only at steps below it. |
| History.RecoversIffRepeats | agent/runtime.py:1075-1112 | Between batches something is left to recover if and only if the batch asks for an email an earlier step answered. |
| History.RepeatedEmailBlocks | agent/runtime.py:1048-1056 | Such a step is never left in any continuation. |
| History.RowChangesBounded | agent/runtime.py:300-451 | Unless a batch repeats an email of an earlier step, the row changes at most three times a step and twice more, over all processes of a run. |
| Witness.StuckReachable | agent/runtime.py:300-451 | The crash-free run, commit by commit: the same email in the first two turns, executed in the first, leaves a stuck state, for all costs within budget and limits that allow two batches; the email is sent if and only if it is well formed. |
| Witness.StuckUnchecked | agent/runtime.py:432-449 | The same with a kill between each parse and its check: one batch executed and another parsed without a single progress check, whatever the limit. |
| Witness.RunIsPath | agent/runtime.py:300-470 | Such a list of commits is a history, with one durable state a commit. |
| Witness.OversizeRequest | agent/runtime.py:289-295 | A request too large alone leaves a log that cannot be replayed with the first commit. |
| Witness.OversizeReachable | agent/validate.py:254-262 | So does a text of the model that is logged before the memory refuses it, if a kill follows: the run is live and its log cannot be replayed. |
| Database.AgentDatabase.CreateRun | agent/run.py:127-149 | One transaction: row and first event together if there was no row, no change otherwise; or the kill before it. |
| Database.AgentDatabase.AppendEvent | agent/run.py:278-296 | One transaction; reports an insertion exactly when the log has grown. |
| Database.AgentDatabase.InsertEvent | agent/run.py:298-316 | INSERT OR IGNORE: the search over the unique column comes to appending if and only if no event has the key. |
| Database.AgentDatabase.SendEmailToolOnce | agent/run.py:482-539 | Email row and execution row in one transaction; an email already there is kept. |
| Executor.ToolExecutor.Execute | agent/executer.py:301-355 | A call with a row is answered from it and changes nothing; any other runs once and is answered from the row it leaves; the result has the call's id and tool, its row's body and error, and is ok if and only if the row is completed without error; a good write put its content at its target and nothing else, a bad one changed at most its own target, and that only by a fault of the host. |
| Events.SameKey | agent/runtime.py:1013-1026 | Two calls have one key if and only if they are the same call, or emails of the same address, subject and body. |
| Executor.ToolExecutor.ExecuteSendEmailOnce | agent/executer.py:366-424 | Ok exactly when all three fields are strings, with one email of these fields; otherwise a failed row and no email. |
| Workspace.HostWorkspace.CaptureWritePreimage | agent/runtime.py:694-707 | The target's content, or its absence; nothing for a path outside the root or a folder. |
| Workspace.HostWorkspace.WriteText | agent/executer.py:60-71 | A write succeeds with exactly its content at its target, or fails with nothing changed elsewhere; without text content, without a target or at a folder it fails without a trace. |
| Workspace.UndoWrite | agent/runtime.py:571-577 | Undoing a write by its preimage and then the earlier ones is undoing the earlier ones, whatever paths they share. |
| ToolBatch.BatchExecutor.RecordStarts | agent/runtime.py:484-501 | The log gets exactly the starts of the batch, in order, whatever was logged of them before a kill; row, tables and what the conversation knows are unchanged. |
| ToolBatch.StartsLogged | agent/runtime.py:484-501 | That is: in the order of the batch one start for each call that had none at its place, and every call has one then. |
| ToolBatch.BatchExecutor.RunReads | agent/runtime.py:534-551 | Over all interleavings of the workers' check, run and record steps: every read has a result backed by its row; with distinct keys rows and results are those of running them one by one, each result with the body and error that its own reply or its old row has; no row of a write or email changes, and no file unless a read runs a program. |
| ToolBatch.BatchExecutor.RollbackWrites | agent/runtime.py:710-735 | Last in, first out: the files are those of undoing all preimages but for places of writes that could not be restored and whose results now say so; each write is restored or so marked, and nothing else changes. |
| ToolBatch.BatchExecutor.RunOne | agent/runtime.py:515-532 | An email without a row goes out if and only if it is well formed and no tool result is in the log; any other call is answered by the executor. |
| ToolBatch.BatchExecutor.BlockedToolResult | agent/runtime.py:737-772 | Answers from the row if there is one, and otherwise leaves a blocked row with the error and fails with it. |
| ToolBatch.BatchExecutor.RunWrites | agent/runtime.py:553-581 | Either no write failed, the files are the base with the writes in order and the preimages lead back; or the first that ran and failed, or a failure before the writes, is pinned, the files are back but where a write reports a fault of the host, and exactly the repeats of taken-back writes read as ok; after a failure nothing is written or taken back any more. |
| ToolBatch.BatchExecutor.RunEmails | agent/runtime.py:583-601 | The same after the emails, where the first that fails takes the writes back, once; an email goes out exactly if nothing failed before the emails, nothing is tainted, and it and all before it are well formed, or it repeats one that went out. |
| ToolBatch.BatchExecutor.RecordResults | agent/runtime.py:603-657 | The log gets exactly the reported results, in order; the model's memory gets, for each result new in the log and in that order, its rendering between the sentinels and nothing else, up to the one it refuses; taken-back writes are reported and recorded as failed and no other row changes; known results change nothing. |
| ToolBatch.ResultsLogged | agent/runtime.py:634-656 | The log so gets, in the order of the batch, one result for each key that had none, and every result has its key there then. |
| ToolBatch.BatchExecutor.ExecuteToolCalls | agent/runtime.py:472-657 | All-or-nothing for one invocation, measured from the files it found (unless a read runs a program), with the exact exception; each result of a write, an email or a call whose key no other call has carries the body of its key's row; the memory is shown each newly logged result and nothing else; which emails go out, and that they read as ok if and only if they are sent; the log gets exactly the missing starts and the missing results; a batch whose keys all have rows changes no row, email or file, and cannot raise if its results are logged as well; at most six transactions a call. |
| ToolBatch.FailedBatchReportsNoWrite | agent/runtime.py:607-632 | With distinct keys a failed batch reports none of its writes as ok. |
| ToolBatch.DistinctEmailsGo | agent/runtime.py:583-601 | With distinct keys an email is sent if and only if nothing failed before the emails, nothing is tainted, and it and all emails before it are well formed. |
| ToolBatch.FailedBatchRestores | agent/runtime.py:710-735 | A failed batch leaves every place as it was at entry, except where one of its writes reports a fault of the host; if no result does, all files are as at entry. |
| ToolBatch.RepeatedWriteReportedOk | agent/runtime.py:559-568 | A write, a write that runs and fails, and the first again: in every outcome the third is reported ok, the first is not, and the files are back but where a fault is reported. |
| Validator.AgentValidator.ValidateTurn | agent/validate.py:175-220 | Called only for a step without response, with the window as the context; the request, with that window's tokens unless one is recorded, is logged before the response, then everything the response says; the memory gets the context and the text it says, if that is new in the log. |
| Validator.AgentValidator.RecordParsedResponse | agent/validate.py:241-293 | After any number of interrupted attempts, the text and every parse error of the response are in the log, word for word, and row, tables and total are as they were. |
| Validator.ChargedSaid | agent/runtime.py:369-375 | In every log, a charged step has its response, its text and each of its parse errors recorded. |
| Runtime.RecoverPendingToolCalls | agent/runtime.py:1075-1112 | The loop comes to the function that the next two rows determine. |
| Runtime.RecoveredAre | agent/runtime.py:1075-1112 | A call is left to recover if and only if the step's parsed batch has it and no result event of that step has its key. |
| Events.MissingAppend | agent/runtime.py:1075-1112 | Such calls stand in the order, and as often, as in the batch. |
| Runtime.AgentRuntime.ChargeBudget | agent/runtime.py:964-993 | The step's total is the recorded one if it was charged before; otherwise one charge is logged, of the request's and the response's tokens, with the total so far plus both; it returns exactly when the total is within budget, with the step paid. |
| Runtime.AgentRuntime.CheckProgress | agent/runtime.py:774-807 | The log gets this batch's check with its count, which RepeatsIsRun says in terms of tools and arguments, and it returns exactly when the count is below the limit; row and tables are left alone. |
| Runtime.AgentRuntime.Respond | agent/runtime.py:377-451 | Ends the run on a plain answer, raises on a cut-off or contradicted one or at the limit of equal batches, with the error explained by the state, and otherwise leaves the calls parsed, pending, and checked as the latest check of the log. |
| Runtime.AgentRuntime.RunPending | agent/runtime.py:318-330 | The batch of the step is answered and no longer pending, the memory shown its newly logged results and nothing else, the total unchanged, the run one round shorter; a stuck run stays stuck, with nothing new but starts. |
| Runtime.AgentRuntime.RunRecovered | agent/runtime.py:306-330 | Calls are recovered only in a run with a repeated email; a stuck run comes back to the very same row, log and tables once its recovered calls have their starts, which takes one round. |
| Runtime.AgentRuntime.Turn | agent/runtime.py:332-375 | The new total is the recorded one of the step, or the old one with the request's count, as recorded or as the context is now, and the response's; the memory gets the context and the text that is new in the log, and nothing else. |
| Runtime.AgentRuntime.Loop | agent/runtime.py:300-470 | It ends the run only for a reason that holds: completed on a plain paid answer, the step limit at the limit, the progress, budget and cut-off errors if and only if their conditions hold, a contradiction that is logged, or an error of the model client or the memory; each step it starts calls of is checked unless it was taken up parsed and unchecked; without a repeated email it makes at most four transactions more than the responses in the log account for; from a stuck state it never ends the run. |
| Runtime.AgentRuntime.Run | agent/runtime.py:274-470 | Whatever happens and wherever it is killed, the store's history stays one of the protocol; it raises if and only if a logged message does not fit alone, and then leaves the run as it was; otherwise it returns only with the run finished, for a reason that holds, and without a repeated email it is killed only if it was granted no more transactions than the log accounts for; a step it starts calls of is checked if and only if it was not taken up parsed and unchecked; a finished run is left alone. |
| Runtime.AgentRuntime.Sessions | agent/runtime.py:265-274 | Any number of processes, each killed anywhere: the log only grows, sent emails and email outcomes stay, every sent email has its completed row, a finished run is left alone, and so is for ever a live one whose log cannot be replayed. |
| Resume.FromEvents | agent/message.py:246-260 | It raises if and only if some logged message alone exceeds the budget; the rebuilt memory is the one the logged conversation leads to, each event replayed as the code reads it, and it knows the facts, turn counts and taint that a live memory does. |
| Resume.TextsAre | agent/message.py:46-58 | What the model is shown of a result, live its whole payload and on resume its body, stands between the two sentinels. |
| Resume.RecallTainted | agent/message.py:272-275 | The taint flag, live or rebuilt, says that some tool result is in the log. |
| Tokenizer.ScanCountsStarts | mockllm/tokenizer.py:13-19 | The greedy scan counts exactly the positions where a token starts. |
| Tokenizer.CountConcat | mockllm/tokenizer.py:13-19 | A concatenation has one token fewer than its parts if the seam joins two words, and as many otherwise. |
| Tokenizer.CountMessageTokens | mockllm/tokenizer.py:22-31 | The loop's total is the sum over all roles and contents. |
| Text.NormaliseCount | agent/message.py:61-62 | Normalising whitespace loses exactly the spaces that count as tokens. |
| Text.NormaliseKeeps | agent/message.py:61-62 | Normalising keeps every character that is no whitespace, in order, with one blank between words and none around them. |
| Text.ClipBounds | agent/message.py:65-69 | Clipping adds at most three tokens, keeps to its limit from three on, and loses nothing else from a text that fits. |
| Text.ClipKeeps | agent/message.py:65-69 | A clipped text is the normalised one if that fits, and otherwise as much of its beginning as leaves room for the ellipsis, without blanks before it. |
| Window.MemoryWindow.Add | agent/message.py:130-135 | A message too large alone raises and changes nothing; any other is appended and compacted, and it raises exactly when the result does not fit. |
| Window.MemoryWindow.CompactIfNeeded | agent/message.py:137-146 | The window becomes its compaction, which Shape.CompactionLaw determines, and it raises exactly when that does not fit. |
| Window.MemoryWindow.CompactedMessages | agent/message.py:154-183 | Keep set, summary and insertion point, against the function that Shape.CompactionLaw says the outcome of. |
| Window.MemoryWindow.DropDroppableMessagesUntilFit | agent/message.py:185-190 | Drops the oldest droppable message until the rest fits or none is left. |
| Shape.CompactionLaw | agent/message.py:137-203 | A window that fits is unchanged; one that fits without its summary loses only that; any other keeps guard, first user message and its last twelve messages, with a summary of exactly the rest, and only while that does not fit loses one message after the other, the oldest first and the summary last. |
| Shape.RootIsFirst | agent/message.py:206-210 | The message always kept is the first of a user, and the others are all the rest. |
| Window.SummaryQuotes | agent/message.py:213-229 | A summary quotes its first twelve messages in order, each with its role and the beginning of its text, and of a tool result only that it is left out. |
| Window.SummaryCounts | agent/message.py:225-229 | Beyond twelve it ends with the number of the others. |
| Memory.MemoryManager.AddUserMessage | agent/message.py:262-265 | Counter, fact and window after a user turn; returns exactly when the window accepts it. |
| Memory.MemoryManager.AddToolResult | agent/message.py:272-275 | The taint flag is set even when the window refuses the message. |
| Memory.MemoryManager.PreserveFact | agent/message.py:320-355 | The list of facts with the new one, unless it is empty, unmarked or known; Facts.TurnsLeaveFacts and Facts.FactsOutrank say which facts and priorities these are. |
| Facts.TurnsLeaveFacts | agent/message.py:320-355 | In every history: a user turn with any text leaves a fact if it is one of the first five or its text is marked, an assistant turn if its text is marked, and nothing else does; the fact is one more at the end, with role, turn and the clipped text. |
| Facts.FactsOutrank | agent/message.py:331-338 | In every history the priority of one fact is above another's if and only if it is an early user fact and the other is not, or it is a user's and the other the assistant's. |
| Memory.MemoryManager.GetCompactedContext | agent/message.py:277-302 | The trimming loop comes to the function whose success and shape Shape decides; the context is the window. |
| Memory.MemoryManager.SyncDurableFactsMessage | agent/message.py:357-373 | Old ledgers go, and the new one stands right after the preamble. |
| Memory.MemoryManager.TrimFactEntries | agent/message.py:395-403 | Removes the first of the facts of lowest priority. |
| Shape.HistoryShape | agent/message.py:130-203 | After every history of operations: optional preamble, optional ledger of at most 2400 tokens and at most 24 or a third of the budget, at most one summary, then all of the conversation from some message on, behind its first user message; a context can be built if and only if preamble and that message fit; whatever returns leaves the window within budget. |
| Shape.ContextSucceeds | agent/message.py:277-302 | Building a context succeeds if and only if preamble and first user message fit, keeps both, and shows the largest of the selected facts, trimmed no more than needed for the ledger to fit beside these two messages. |
| Facts.TrimsKeepLargest | agent/message.py:395-403 | k trims keep, in order, exactly the facts with at least k smaller ones by priority and position. |
| Facts.EarlyFactsLast | agent/message.py:331-403 | In every history, if the trimming of the selected facts drops an early user fact, it drops all that are none, and if it drops a user's, all of the assistant's. |
| Facts.SelectedLaw | agent/message.py:375-386 | Of the first eighty facts those selected stand in order and fit the ledger's share together; one left out does not fit beside them; and if all fit, all are selected. |
| Facts.LedgerShows | agent/message.py:388-390 | The ledger has a line for each of its facts, in order, with role, turn and text. |
| Facts.TrimmedFits | agent/message.py:375-393 | However often it is trimmed, the ledger stays within the budget its facts were selected for. |
| Isolation.ToolOutputIsolated | agent/message.py:213-229 | Two histories that differ only in tool output of equal token counts raise at the same points and agree on every role, every message that is no tool's, summaries, ledger, facts, counters and taint. |
| Breaker.WindowBound | agent/validate.py:45-59 | Any limit + 1 failing calls let through in a row span at least the cooldown. |
| Breaker.CircuitBreaker.Check | agent/validate.py:45-50 | Lets through exactly below the limit or once the cooldown is over, then counting afresh; a refusal changes nothing. |
| Breaker.CircuitBreaker.RecordFailure | agent/validate.py:56-59 | One failure more; at the limit the breaker opens now, and otherwise its opening time stays. |
| Breaker.LLMClient.Call | agent/validate.py:80-127 | For every list of replies: a call is admitted exactly below the limit or after the cooldown, requests up to the first body, the first error other than 429 and 529 or max_retries, leaves no failure counted or one more, and records between two requests one retry, paced by the server's delay if its reply asks for one and else by base * 2^k with jitter up to the base. |
| Breaker.SleepBound | agent/validate.py:129-140 | Retries so paced sleep at most base * (2^n + n - 1) in all, plus what the servers' replies asked for, which is nothing if none asks. |
| Breaker.LLMClient.RetryDelay | agent/validate.py:129-136 | A readable Retry-After is obeyed, never below zero; otherwise the delay is exponential with jitter up to the base. |

## Left out

- The HTTP transport, the subprocess, SQLite, the thread pool and clocks: transactions are atomic, workers interleave in any order, replies and faults are free choices.
- JSON and SHA-256: digests of canonical JSON are taken to be injective, stored values to read back as they were written.
- `agent/response.py`: a response carries its deterministic parse. The raw argument text, ids of runs, time stamps and the trace file are not part of this model.
- The text rules for contradicted success claims (`agent/runtime.py:845-962`): a free choice that raises.
- Config loading, the CLI, replay formatting, the mock server and legacy helpers of `agent/run.py`. The limits are positive, as validated, and stay the same over a run; the limit copied into each progress check is therefore not kept apart.
- Two processes on one run at once, and memories passed in by a caller.
- Exceptions the loop does not catch (a host error while a preimage is read, a database error): the process ends there, which for the store is a kill at that point.
- Tool bodies run at least once across crashes, not exactly once; only emails are sent once.
- Results without an idempotency key (`agent/runtime.py:1066-1073`): every result of the loop has one.
- ToolBatch.BatchExecutor.ExecuteToolCalls: all-or-nothing is stated for one invocation, since preimages are lost in a crash; folders made for a write are not undone, paths resolve alike throughout, and if a read runs a program the files before the writes are whatever it left. Reads that share a key in one batch may run at once, and then each result has the body of its own reply, of which the row keeps one.
- ToolBatch.BatchExecutor.RunReads: the reply of each body is drawn before the schedule, and a body changes files at one moment of it.
- Executor.ToolExecutor.ExecuteSendEmailOnce: the body of a sent email's result is its status alone.
- Resume.TextsAre: the JSON of a payload is any function of the tool and the payload.
- Facts.TurnsLeaveFacts: what counts as marked is the source's list of markers, sought in the lowered text; it has no other law.
- Witness.StuckReachable: the requests count any numbers within the cost budget; whether a context can be built at all is for `Shape.ContextSucceeds` to say.
- Validator.AgentValidator.ValidateTurn: the model answers or fails freely; the retry loop behind it is `Breaker.LLMClient.Call`, on its own.
- Breaker.LLMClient.Call: the base delay is taken to be non-negative, which the configuration does not check, and only the exceptions the loop catches occur.
- Memory.MemoryManager.PreserveFact: the second list of fact texts is not kept, as nothing reads it, and only ASCII letters are lowered before the markers are sought.
- Errors carry the name of their exception, not its text; strings hold Unicode scalar values.
