# Verification of the cmpath engine, its clients and its memory packing

This project models the recoverable execution journal of the native engine, the client loops that
run on it, and the algorithms around them, and proves what they promise. `dafny verify
dfyconfig.toml` checks all of it.

How it is laid out:

- `JournalState`, `JournalSteps`, `Retention`: the tables, and each operation as a function from a
  state to a result, where an error carries no state.
- `JournalEngine`: the same operations as they run, statement by statement inside a transaction that
  rolls back, on an object with one database; each is proved equal to its function.
- `JournalRuns`, `JournalHistory`, `Freshness`, `FreshnessRuns`: runs of the journal, that is any
  interleaving of calls by any workers with retention passes and foreign statements; the invariant;
  and the results over whole runs.
- `RowScan`, `RetentionPass`, `RetentionScan`, `TurnTimes`: the retention pass, and the times it goes by.
- `SnapshotChain`, `Replays`, `Leases`: the chain of a task's snapshots, what repeated calls answer, and
  what a lease certifies.
- `Admission`: exactly when each call is accepted, and that what a refusal says is so.
- `Workers`, `Dispatchers`, `Agent`, `Progress`: the client loops, with crashes and overlapping processes,
  and what they achieve undisturbed.
- `Coalescer`, `WireRows`, `Ingest`: transcript ingest and healing.
- `Ancestry`, `Packing`, `NativePacking`, `Pinned`: the bounded search and the bounded packing.
- `LineEndings`, `Migration`, `Publication`: the line-ending scanner, the import order, and the
  no-overwrite publication of exports.

What the models assume:

- SHA-256 is injective, and JSON encoding too, so a fingerprint, plan hash, lease token or content digest
  is modelled as the value it is taken of, and a JSON column as its text. The one exception modelled: a
  reply drops an empty snapshot (`omitempty`, native/engine/harness.go line 11), so a reply with snapshot
  `{}` and one without any are one reply on record (`Encoded`).
- The operations are atomic: the engine holds a mutex and an immediate transaction. Time is a number
  passed to each call, with no assumption that it grows.
- The clock triggers are those of `native/engine/journal.sql` lines 92-191: each row written for a
  task advances (or creates) its clock, and the global clock with it. Neither the engine nor a trigger
  deletes a clock row; the freshness results say where they need that.
- Foreign writers respect foreign keys, and whatever changes a snapshot or a status also raises the
  revision, as every storage method does. A larger foreign transaction is several statements, which
  only admits more interleavings.
- Search results, provider responses, tool results, redaction and counters are arbitrary.
- In the Python packing one message id is one record (`OneRecord`): its records carry no score. The
  native records do, and nothing of the kind is assumed there; a spelled score has at least one character.

Where the code and its own documentation differ, the code was followed:

- `run_heal` (src/cmpath/autosave_cli.py lines 160-163) calls the first pass that adds nothing the
  proof that the wire is fully stored; a digest that is only in the shared window is skipped as well
  (`Ingest.WindowHides`; `Ingest.Store.Heal` says exactly what is left).
- The converter of line endings is not idempotent when a line comment holds a lone carriage return
  (`LineEndings.LoneReturnInComment`).
- `ExportFile` (native/engine/maintenance.go lines 254-257) advises a file system with hard links to those
  who fear that their reservation is replaced; when others delete the destination, that does not suffice
  (`Publication.LinksDoNotSuffice`).
- Provenance may be declared as contradicting, but such an edge always blocks the commit, so only
  supporting edges are ever stored (`JournalRuns.EffectKeeps`).

## Model

| member | source | states |
|---|---|---|
| `JournalRuns.StepEffect` | native/engine/harness.go:84-575 | in every state the invariant allows, whatever an operation does is one of eleven named effects (with its full guard, every row it writes, and the time a turn row is stamped with) or nothing at all |
| `JournalRuns.EffectKeeps` | native/engine/journal.sql:8-91 | each effect keeps the journal invariant: one pending turn per task, tombstones and turns disjoint, a reply exactly on committed turns, no dangling child row, no unresolved tool under a commit, snapshot changes always visible in the revision, provenance only under commits |
| `JournalRuns.InvAlways` | native/engine/engine.go:179-198 | the invariant holds in every state of every interleaving of workers, crashes, recoveries, retention passes and foreign writers |
| `JournalRuns.CommitShape` | native/engine/harness.go:190-303 | an accepted commit wrote exactly one assistant message, one revision, its snapshot, each fact of the reply as the next row of its task (in order, with key, content, evidence and flag, at a revision above every earlier one of its key), its supporting edges and the turn row with the call's time, and left every other table alone |
| `JournalRuns.SetFactsWrite` | native/engine/harness.go:271-275 | writing a list of facts adds one row for each of them, in order and with its contents, at a revision above every earlier row of its key, and touches no other fact |
| `JournalRuns.CommitGuard` | native/engine/harness.go:222-267 | an accepted commit was pending, fresh, unresolved-tool free and at the captured revision; a scoped change of the snapshot names evidence; and every edge is supporting, on record, of a task within the turn's scope (three parent steps), under no retracted fact, and named once |
| `JournalRuns.FinishShape` | native/engine/harness.go:459-517 | recording a tool result adds one tool message and moves every basis row of the turn by exactly what that message moved its clock, and no other basis row at all |
| `JournalRuns.BeginShape` | native/engine/harness.go:122-163 | a first begin reopens the task if archived, adds the user message and one pending row of generation 1 with the counted context and the call's time, and captures exactly the scope at the clocks as they stand after its own writes |
| `JournalRuns.ProvenanceAccepted` | native/engine/freshness.go:76-126 | a list of edges is accepted if and only if each is supporting, on record, in scope and not retracted, and none comes twice |
| `Admission.CommitAccepts` | native/engine/harness.go:205-303 | a turn that is not committed is committed by a call if and only if worker, freshness, revision, tools, text, facts and provenance are all in order, each said of the rows it concerns |
| `Admission.CommitSays` | native/engine/harness.go:205-303 | whatever code a refused commit reports is true of the call and the rows it found |
| `Admission.BeginAccepts` | native/engine/harness.go:84-165 | a new request begins if and only if it is well formed, its id not retired, its task there and not busy, its mandatory context fits, and the clocks of its scope are there |
| `Admission.BeginSays` | native/engine/harness.go:84-165 | whatever code a refused begin reports is true |
| `Admission.RecoverAccepts` | native/engine/harness.go:169-189 | a recovery is accepted if and only if the turn is live under the expected generation and its task at the captured revision |
| `Admission.RecoverSays` | native/engine/harness.go:169-189 | whatever code a refused recovery reports is true |
| `Admission.AbortAccepts` | native/engine/harness.go:304-312 | an abort is accepted if and only if the turn is live under the worker's generation |
| `Admission.StartAccepts` | native/engine/harness.go:420-458 | a new intent is journaled if and only if the turn is live and its scope untouched, a known one shown if and only if it is the same |
| `Admission.EligibleAccepts` | native/engine/harness.go:378-419 | a lease is issued if and only if the call is live and unresolved, its scope untouched, its lifetime within ten minutes and the very same lease not issued before |
| `Admission.FinishAccepts` | native/engine/harness.go:459-541 | a first result is recorded if and only if the call is started and live, and a lease, if given, is on record for this turn, worker, call and arguments and expires after now |
| `Admission.FinishSays` | native/engine/harness.go:459-541 | whatever code a refused result reports is true, the four ways a lease can be wrong included |
| `Admission.RequestAccepts` | native/engine/harness.go:545-575 | a payload is journaled or confirmed if and only if the turn is live, the payload within its allowance, and the scope untouched or the very same payload on record |
| `Admission.ResponseAccepts` | native/engine/model_response.go:46-80 | a response is recorded or confirmed if and only if the turn is live, its request journaled, and no other response on record |
| `Admission.WorkSays` | native/engine/harness.go:378-575 | whatever code a refused intent, eligibility check or model call reports is true |
| `JournalHistory.StaleWorkerChangesNothing` | native/engine/harness.go:68-80 | a call whose generation is not the current one, or for an id without a turn, fails and leaves the whole database unchanged, whichever operation it is |
| `JournalHistory.GenerationsRise` | native/engine/harness.go:169-189 | generations never fall along a run, so a fenced worker stays fenced |
| `JournalHistory.GenerationStep` | native/engine/harness.go:183-185 | a recovery that changes anything strictly raises the generation |
| `JournalHistory.PhaseMoves` | native/engine/harness.go:84-312 | the only moves of a request id are absent to pending by begin, pending to committed by its commit, pending to aborted by its abort, and finished to retired (with the same outcome) by retention |
| `JournalHistory.PhaseRises` | native/engine/harness.go:84-312 | along any run a request id only moves forward; a retired id is never pending again |
| `JournalHistory.CreatedAtMostOnce` | native/engine/harness.go:97-161 | over a whole run begin reports `created` at most once per request id, retention included |
| `JournalHistory.ToolCreatedAtMostOnce` | native/engine/harness.go:429-456 | over a whole run a tool intent is reported `created` at most once per request and call id |
| `JournalHistory.OneAnswerPerCommit` | native/engine/harness.go:265-303 | conservation: over any run a request id adds one assistant message if it went to committed during the run, and none otherwise, replays and aborts included |
| `JournalHistory.CommittedInOneStep` | native/engine/harness.go:205-303 | a request that became committed did so in exactly one step, which published the whole reply: message, revision, snapshot, every fact, edges and turn row with the time of that call; it was uncommitted before and stays committed after |
| `JournalHistory.CommitReplacesCaptured` | native/engine/harness.go:137-156 | no lost snapshot update: from begin to the commit the task's snapshot is at every point the one in the turn's package, whatever foreign snapshot writers did |
| `SnapshotChain.SerialChain` | native/engine/harness.go:137-287 | for any two commits on one task, the later turn began after the earlier commit, and its package shows the value of the last writer in between (that commit, another, or a foreign write), which nobody overwrote until the later commit replaced it |
| `SnapshotChain.NoWriteUnderTurn` | src/cmpath/memory.py:307-318 | between the begin and the commit of a turn nobody writes its task's snapshot |
| `JournalHistory.LiveTurnFixed` | native/engine/harness.go:84-189 | while a turn is pending its request, revision and package never change and its task's revision never falls |
| `Replays.AcceptedOnce` | native/engine/harness.go:84-575 | idempotence over runs: once a begin, recovery, commit, abort, tool start, tool result, model request or response was accepted, the same call at any later point changes nothing, and whoever may still make it is told that it was made, as a replay |
| `Replays.AnsweredStays` | native/engine/harness.go:84-575 | no step of anybody takes back what an accepted call left for as long as its turn is there |
| `Replays.RetiredIsRefused` | native/engine/harness.go:98-107 | a retired id is refused for ever, as retired to the same request and as a conflict to any other |
| `Replays.BeginReplays` | native/engine/harness.go:108-119 | a known id is replayed if and only if the request is the same, and nothing changes either way |
| `Replays.BusyTaskWaits` | native/engine/harness.go:120-126 | a new id is refused while any turn of its task is pending |
| `Replays.CommitReplays` | native/engine/harness.go:205-221 | a committed turn is replayed if and only if generation and reply are its own, however stale its scope has become |
| `Replays.AbortedStaysAborted` | native/engine/harness.go:68-80 | an aborted turn can neither be committed, recovered nor aborted again |
| `Replays.StartReplays` | native/engine/harness.go:429-445 | a journaled intent is shown again if and only if the input is the same, and never as created |
| `Replays.FinishReplays` | native/engine/harness.go:465-484 | a recorded result is confirmed if and only if it is the same, without looking at the lease |
| `Replays.ModelReplays` | native/engine/harness.go:553-570 | journaled model requests and responses are confirmed byte for byte and otherwise refused |
| `Replays.ModelGuards` | native/engine/harness.go:545-575 | no payload above the turn's input allowance is journaled, and no response without its request |
| `Replays.UnresolvedToolBlocks` | native/engine/harness.go:261-267 | a tool without a confirmed result blocks every commit of its turn |
| `Leases.IssuesOne` | native/engine/harness.go:378-419 | a check issues one lease, for exactly the call it checked, live, fresh and unresolved, that lasts as long as was asked, five seconds by default and at most ten minutes |
| `Leases.LeaseGuardsFinish` | native/engine/harness.go:519-541 | a first result under a lease needs a lease on record for this very turn, worker, call and arguments that has not expired |
| `Leases.FinishFollowsCheck` | native/engine/harness.go:378-541 | in any run, a result first recorded under a lease that is not from before the run follows an eligibility check in that run that found this worker's turn live, its scope fresh and this call unresolved |
| `Freshness.StepTouches` | native/engine/journal.sql:92-191 | a step leaves the memory of every task whose clock it did not move untouched, and moves the global clock whenever it touches any memory |
| `Freshness.TickIs` | native/engine/journal.sql:92-191 | one row written for a task advances its clock by one, or creates it at one, and the global clock, if it is there, by one; no other clock moves |
| `Freshness.BasisStep` | native/engine/freshness.go:139-148 | the basis of a turn keeps its rows while the turn lives and moves only with the turn's own tool output, by exactly the measured delta |
| `FreshnessRuns.ExactClock` | native/engine/freshness.go:139-148 | along any run a captured clock is ahead of its basis by exactly what others added since, the turn's own tool outputs never counting |
| `FreshnessRuns.BeginStarts` | native/engine/freshness.go:7-28 | right after a first scoped begin the basis is exactly the scope, each row equal to its clock |
| `FreshnessRuns.FreshExactly` | native/engine/freshness.go:32-55 | validateBasis passes if and only if nobody else touched any task of the captured scope since begin (clock rows not being deleted) |
| `FreshnessRuns.WorkNeedsUntouchedScope` | native/engine/harness.go:378-456 | a new intent, lease, model request or commit is accepted only when no foreign write touched the scope |
| `FreshnessRuns.StaleForever` | native/engine/harness.go:492-509 | staleness is permanent: no later tool result, recovery or write makes a stale turn fresh |
| `FreshnessRuns.LostClockForgives` | native/engine/freshness.go:37-53 | the case those two exclude: if a clock row is lost from outside, the trigger restarts it at one and a stale turn can pass again |
| `FreshnessRuns.StaleTurnExists` | native/engine/freshness.go:32-55 | a concrete stale turn to which that case applies |
| `FreshnessRuns.FreshScopeIsTheCapturedScope` | native/engine/freshness.go:32-55 | while validateBasis accepts, recomputing the scope gives the captured list back in the same order, and each task in it has the row, parents, facts and messages it had at begin, apart from the turn's own tool outputs |
| `Ancestry.SearchExact` | src/cmpath/memory.py:429-444 | the search returns, without duplicates, exactly the tasks within the given number of parent steps, on any graph |
| `Ancestry.LineageOf` | src/cmpath/memory.py:429-444 | the Python loop with its early exit computes that list |
| `Ancestry.ScopeIds` | native/engine/context.go:115-143 | the Go loop with its seen map computes the three-hop list |
| `Ancestry.ScopesAgree` | native/engine/context.go:127-142 | at three hops the two loops return the same list in the same order |
| `Ancestry.EmptyFrontierIsFinal` | src/cmpath/memory.py:440-443 | stopping once a hop found nothing changes no result |
| `Ancestry.LineageStable` | native/engine/context.go:115-143 | the search reads the parents of nothing but what it returns, so unchanged parents there give the same list |
| `JournalEngine.Engine.Begin` | native/engine/harness.go:84-165 | statement by statement with rollback, begin equals its specification, error by error; needs only the basis foreign key |
| `JournalEngine.Engine.Recover` | native/engine/harness.go:169-189 | equals its specification |
| `JournalEngine.Engine.Commit` | native/engine/harness.go:190-303 | equals its specification, with its loops over facts and edges; none of its inserts can collide with an older row |
| `JournalEngine.Engine.Abort` | native/engine/harness.go:304-312 | equals its specification |
| `JournalEngine.Engine.StartTool` | native/engine/harness.go:420-458 | equals its specification |
| `JournalEngine.Engine.ActionEligible` | native/engine/harness.go:378-419 | equals its specification, the zero lifetime default and bounds included |
| `JournalEngine.Engine.FinishTool` | native/engine/harness.go:459-517 | equals its specification |
| `JournalEngine.Engine.RecordModelRequest` | native/engine/harness.go:545-575 | equals its specification |
| `JournalEngine.Engine.RecordModelResponse` | native/engine/model_response.go:46-80 | equals its specification |
| `JournalEngine.Engine.CaptureBasis` | native/engine/freshness.go:7-28 | the insert loop stores each scope task once with its clock, or fails as a whole |
| `JournalEngine.Engine.ValidateBasis` | native/engine/freshness.go:32-55 | the row loop decides freshness |
| `JournalEngine.Engine.ValidateProvenance` | native/engine/freshness.go:76-126 | the loop with its seen and allowed sets finds the first faulty edge and its error |
| `JournalEngine.Engine.AdvanceBasis` | native/engine/freshness.go:142-148 | adds the measured delta to one row, if it is there |
| `JournalEngine.Engine.ApplyRetention` | native/engine/maintenance.go:453-493 | equals its specification |
| `RowScan.EachRow` | native/engine/maintenance.go:57-89 | ends, and visits each matching row exactly once in rowid order, negative rowids included, up to the visitor's first error |
| `RetentionScan.Scan` | native/engine/maintenance.go:371-440 | the dry run reports the qualifying turns in rowid order, how many turns are protected and why, and per table the rows an apply removes |
| `RetentionScan.Apply` | native/engine/maintenance.go:453-493 | the recomputed plan is compared and then carried out; the convergence check never fails and no foreign key stops it |
| `RetentionScan.RetireOne` | native/engine/maintenance.go:471-489 | one tombstone and seven deletes always retire exactly one request |
| `RetentionScan.OrderRespectsReferences` | native/engine/maintenance.go:310-337 | the apply order never deletes a row that another row refers to |
| `RetentionScan.OrderDecides` | native/engine/maintenance.go:310-314 | for any order of deletes: they go through if and only if every table with a row that refers to another is deleted before it |
| `RetentionPass.RemovesWhatWasCounted` | native/engine/maintenance.go:453-493 | applying a dry run's plan removes from each table exactly the rows that dry run counted |
| `RetentionPass.LeavesTheRest` | native/engine/maintenance.go:449-493 | each planned request becomes one tombstone with its fingerprint and outcome, every other request keeps every row, and all base evidence, facts, tasks and clocks stay |
| `RetentionPass.Protects` | native/engine/maintenance.go:377-410 | planned if and only if committed or aborted, with no started tool, and last touched strictly before the cutoff |
| `RetentionPass.NothingLeft` | native/engine/maintenance.go:453-493 | after an apply the plan for that cutoff is empty, and the same plan is refused unless it was empty |
| `RetentionPass.AcceptedIffUnchanged` | native/engine/maintenance.go:339-367 | an earlier plan is accepted if and only if the same turns qualify in the same order and none of their rows changed |
| `RetentionPass.RecordIsRows` | native/engine/maintenance.go:339-367 | two records of a request are equal if and only if its turn row (but for the rowid), tools, model calls, responses, basis, provenance, leases and tombstone are all the same |
| `TurnTimes.LastMove` | native/engine/harness.go:84-312 | along any run a turn's time is that of the last call that began, recovered, committed or aborted it; replays and refusals leave it |
| `TurnTimes.KeptUntilCutoff` | native/engine/maintenance.go:377-410 | a turn finished at some time keeps its row through any run whose retention passes have no later cutoff |
| `TurnTimes.RetiredAfterAllMoves` | native/engine/maintenance.go:377-410 | with times that never fall, a pass that retires a turn has a cutoff after every call that moved it |
| `Workers.AtMostOnce` | native/engine/harness.go:580-638 | over any run, with any callers, crashes, recoveries, retention passes and foreign writers, `complete` is invoked at most once per request id and `execute` at most once per request and call id |
| `Workers.SameAnswers` | native/engine/harness.go:580-638 | all callers told a reply for one request id are told the same reply, and all callers told a result for one call id the same result |
| `Workers.MoveKeeps` | src/cmpath/harness.py:463-557 | no two callers ever hold the same permission, none holds one that was used, and each is on record in the journal |
| `Workers.AnswerGrants` | native/engine/harness.go:580-638 | a caller gains a permission only by an answer that first put it on record, and is told only what the journal holds |
| `Progress.RunCompletes` | native/engine/harness.go:580-611 | an undisturbed caller of `Run` with a new request: its call is accepted, `complete` is invoked once, its reply is committed, and the caller is told it |
| `Progress.ToolCompletes` | native/engine/harness.go:617-638 | an undisturbed caller of `Session.Tool` with a new call: intent, lease, one invocation of `execute`, and its result recorded and told, if it took less than the lease's five seconds |
| `Progress.CompletedIsTold` | native/engine/harness.go:626-628 | a caller of a completed call is told the recorded result, and nothing is done |
| `Progress.CommittedIsTold` | native/engine/harness.go:591-593 | a caller of `Run` for a committed request is told the recorded reply, and nothing is done |
| `Progress.JustBegunIsPublishable` | native/engine/harness.go:84-303 | right after a first begin a reply is publishable if and only if it is in order itself: the new turn is live, fresh, at its revision and without tools |
| `Agent.ResumeEquivalence` | src/cmpath/agent.py:270-343 | whatever runs, crashes and resumes led to a committed journal, an agent that never crashes, given the recorded responses and results, sends exactly the checkpointed payloads, round for round, and ends with the same reply |
| `Agent.StraightIs` | src/cmpath/agent.py:289-343 | what the agent that never crashes sends: the first messages, then each payload followed by the same messages, the model's response, and one tool message for each of its calls, in order, with the call's id and result; and it ends with the last response's own outcome, or the limit |
| `Agent.CheckpointsContinue` | src/cmpath/agent.py:289-343 | the checkpoints of any journal are one conversation: the first messages, and then payload k+1 is payload k, the recorded response of round k, and for each of its calls in order the tool message with its id and recorded result |
| `Agent.Journal.Run` | src/cmpath/agent.py:270-343 | stopped anywhere and resumed any number of times, the logs of dispatches and executions keep every earlier entry and gain none twice: under policy `error` no round whose request or response was on record is dispatched, under `retry` none whose response was, and no journaled call is executed under either; every new response is the transport's to its own checkpoint and every new result the workspace's for its own call; the checkpoints are one conversation; a reply is the text of the last response of a journal whose rounds all went on, and every other outcome is what the records or the caller's inputs say; a committed request is answered without any effect |
| `Agent.Journal.RunRound` | src/cmpath/agent.py:291-310 | a round ends with what its response says (go on after runnable calls, a final text that is not blank, or a bad response), or without one because a saved request is unanswered under `error`, the payload exceeds the allowance, or the transport or the process stopped |
| `Agent.Journal.Ask` | src/cmpath/agent.py:291-310 | the rows read at the start of the run decide: a saved response is used without a dispatch, an unanswered saved request is refused under `error`, and otherwise the checkpointed payload is dispatched once and its response recorded |
| `Agent.Journal.Checkpoint` | src/cmpath/harness.py:559-580 | the payload is journaled before it is sent and a known round is never in conflict with it |
| `Agent.Journal.Dispatch` | src/cmpath/agent.py:306-310 | exactly one dispatch joins the log before its outcome is known, its response is the transport's to exactly this payload, and it is recorded before use |
| `Agent.Journal.RunTool` | src/cmpath/harness.py:542-557 | intent before effect; a journaled call is not executed, a completed one is answered from the journal, and it never meets different input; a new call ends with the workspace's own result on record |
| `Agent.Journal.Execute` | src/cmpath/harness.py:542-557 | one execution joins the log, of a call that was never executed, and its result is the workspace's own and recorded |
| `Agent.Journal.RunCalls` | src/cmpath/agent.py:326-342 | the calls of a response run in order, and an invalid or repeated id stops the round |
| `Agent.Journal.Act` | src/cmpath/agent.py:311-325 | the outcome fits the response: a final text that is not blank commits with no tool left unresolved, a bad response is reported as one, and after runnable calls the conversation goes on with the response and its results |
| `Agent.PayloadDetermined` | src/cmpath/agent.py:289-303 | a payload depends on nothing but the records of the rounds before it |
| `Dispatchers.SentAtMostOnce` | src/cmpath/agent.py:283-310 | over any run of any number of overlapping agents, fenced ones included, with crashes, recoveries, retention and any other calls in between, each model call id is sent at most once |
| `Dispatchers.MoveKeeps` | src/cmpath/agent.py:283-310 | a generation is taken by one agent, and while it is current that agent knows every journaled call of its request |
| `Dispatchers.RequestIsNew` | src/cmpath/agent.py:298-307 | a request accepted for a round the agent did not read as journaled journals it for the first time |
| `Progress.ResumedAgentSends` | src/cmpath/agent.py:279-310 | an undisturbed agent that resumes a live turn takes its next generation, reads exactly the journaled calls, journals the payload of a new round and sends it |
| `Coalescer.Coalesce` | src/cmpath/autosave.py:369-406 | the buffering generator yields one row per maximal run of fragments of one role and key |
| `WireRows.RowsAreMessages` | src/cmpath/autosave.py:338-406 | read off the lines of the file: every line that says something, up to the first torn one, is in exactly one row; neighbours share a row if and only if they have one role and one shared name; a row has its lines' role, and its text is what the lines from its first to its last say, put together |
| `WireRows.OwnLineAlone` | src/cmpath/autosave.py:277-290 | a prompt, or any line that shares no name, is a row by itself with exactly its role and text |
| `Coalescer.TextPreserved` | src/cmpath/autosave.py:369-406 | no text is lost, repeated or reordered |
| `Coalescer.RowsSeparate` | src/cmpath/autosave.py:369-406 | row line ranges increase and are disjoint, and neighbours differ in role or key |
| `Coalescer.SafeCut` | src/cmpath/autosave.py:797-813 | scanning again from the last line of any row yields exactly the rows after it |
| `Coalescer.ResumedScan` | src/cmpath/autosave.py:338-406 | the same for a pass that skips the lines up to the cut unread, the torn-line rule included |
| `Ingest.Store.Pass` | src/cmpath/autosave.py:731-848 | a pass over a file that only grows scans the first rows after its start, up to the deadline or the five hundredth new row; what it stores, the window, the cursor and its history are exactly those of these rows, and a dry or skipped pass changes nothing; each added row is a whole message of the file's lines, prepared, in line order; every content line at or below a cursor of the current parser lies in a row some pass scanned, which is stored, was in the window then, or was empty; a complete cursor is trusted, and an unchanged file is skipped only when all of it was scanned; a reset pass stores nothing twice, and an uncut rebuild leaves missing exactly what the window hid |
| `Ingest.PassMeans` | src/cmpath/autosave.py:793-838 | what follows for a pass from the rows it scanned: nothing in the window and, on a reset, nothing stored is stored again, and every added digest is one of the file |
| `Ingest.PassAddsMessages` | src/cmpath/autosave.py:793-838 | each row a pass adds, and each record in its history, is a whole message read off the lines of the file, neither more nor less |
| `Ingest.PrepareMeans` | src/cmpath/autosave.py:447-470 | what is stored of a message is its redacted text without the white space around it, cut at 4000 characters, and nothing if only white space is left |
| `Ingest.Store.Scan` | src/cmpath/autosave.py:793-813 | the scan stops at the first row where the deadline has passed or after the five hundredth new one, and collects exactly the unknown rows it passed |
| `Ingest.Store.Append` | src/cmpath/autosave.py:829-838 | exactly the new rows are stored, in order with their lines and role, and the window slides over them, keeping the newest up to its cap |
| `Ingest.Store.Save` | src/cmpath/autosave.py:597-607 | rows, window and history gain exactly what the scanned rows give; the cursor is recorded only with evidence to anchor it, and coverage then reaches it |
| `Ingest.Store.Share` | src/cmpath/autosave.py:676-682 | a prompt's digest slides into the shared window with its evidence, and no cursor loses its coverage |
| `Ingest.Store.ForgetCursor` | src/cmpath/autosave.py:604-605 | losing the cursor to the bounded map loses no coverage either |
| `Ingest.OnlyStampedCursorsResume` | src/cmpath/autosave.py:735-784 | a pass starts past line zero, or not at all, only on a cursor of the current parser version |
| `Ingest.StartDecides` | src/cmpath/autosave.py:731-785 | a pass is skipped if and only if the cursor is the current parser's, its pass read the whole file, and time and size are as recorded; it resumes if and only if the file begins as recorded and became longer or was not touched; otherwise it starts over |
| `Ingest.Store.Heal` | src/cmpath/autosave_cli.py:213-232 | healing ends; after success, what is still missing is exactly what was missing at the start and in the part of the first window that the added rows did not push out; so the file is stored if nothing missing was in the window before the heal, and only if, when the window has room for the file's rows; for a window of any size and a file whose rows all differ, it is stored if and only if, for every k below the number of missing digests, more than k of them are outside what k newer digests leave of the window; the cursor is then one the next pass trusts (given rows and evidence); `incomplete` needs sixty-four missing digests |
| `Ingest.AllOrStuck` | src/cmpath/autosave_cli.py:213-232 | why that is exact: the digests added were missing and pushed out when they were added, and healing ends at the first number of them after which no further one is |
| `Ingest.MissingShrinks` | src/cmpath/autosave_cli.py:217-231 | every pass that adds a row strictly shrinks the set of digests not stored for the path |
| `Ingest.WindowHides` | src/cmpath/autosave_cli.py:160-163 | a store whose window holds the digest of a one-prompt wire: healing reports success and the prompt is still not stored for the path |
| `Ingest.FullyScanned` | src/cmpath/autosave.py:793-813 | an uncut rebuild leaves missing exactly what was missing and in the window it started with |
| `Packing.Context` | src/cmpath/memory.py:494-573 | the push, count and pop loops return the counted payload within the allowance, refused only when the bare envelope does not fit, with the citations of its evidence in order; the payload is what the turns of title, snapshot, facts and candidates in their order lead to, each packed exactly if it fits at its turn |
| `Packing.PackTurns` | src/cmpath/memory.py:536-571 | the packing, turn by turn: title, snapshot, each fact with its source, then each candidate whose message is not packed and did not come up before |
| `Packing.PackSound` | src/cmpath/memory.py:536-571 | for any counter: within the allowance, no evidence twice, every packed fact with its source |
| `Packing.FactsHandled` | src/cmpath/memory.py:539-558 | every mandatory atom is packed or counted as omitted |
| `Packing.CandidatesHandled` | src/cmpath/memory.py:559-571 | every candidate is packed, or omitted under its id |
| `Packing.PackMaximal` | src/cmpath/memory.py:536-571 | for a counter that grows with the payload, adding any omitted atom back to the final payload exceeds the allowance |
| `Packing.NothingMoreFits` | src/cmpath/memory.py:536-571 | read off the final payload: for a counter that grows with it, no title, snapshot, fact or candidate that is not in it would still fit |
| `Packing.EstimatedIsMonotone` | src/cmpath/memory.py:56-58 | the default estimate of the rendered payload grows with the payload, so the maximality above applies to it |
| `Packing.CustomCounterCanUnderfill` | src/cmpath/memory.py:494-573 | a custom counter for which it does not hold |
| `NativePacking.NativePack` | native/engine/context.go:163-268 | the three loops of proposals return the counted payload within the allowance, refused only when the bare envelope does not fit, with its citations in order; the payload is what the turns of facts, scored hits and recent messages in their order lead to |
| `NativePacking.PackNativeTurns` | native/engine/context.go:184-253 | the packing, turn by turn: each fact with the unscored record of its source, each hit with its score, each recent message unscored; evidence that is packed is passed over |
| `NativePacking.ProposalsSound` | native/engine/context.go:184-217 | for any counter: within the allowance, no message twice, every packed fact with its source |
| `NativePacking.ProposalsHandled` | native/engine/context.go:184-217 | every proposal is packed or counted as omitted |
| `NativePacking.ProposalsMaximal` | native/engine/context.go:163-268 | maximality with scores: although a search hit and an unscored row of one message are two records, for any counter that never falls as the rendered envelope gets wider, adding any omitted proposal back to the final payload exceeds the allowance |
| `NativePacking.ShippedCountersAreMaximal` | native/engine/context.go:84-96 | so it holds on every input for `estimated` and for `utf8-json-bytes` |
| `NativePacking.EstimatedFollowsWidth` | native/engine/context.go:85-92 | the default estimate is such a counter, one unit of width a character |
| `NativePacking.JsonBytesFollowsWidth` | native/engine/context.go:93-94 | the byte count of the encoded messages is such a counter, with the width of a character in a JSON string |
| `NativePacking.ZeroIsShortest` | native/engine/engine.go:310-330 | the unscored record of a message is never wider than a scored one |
| `NativePacking.TwoRecordsCanUnderfill` | native/engine/context.go:184-217 | a custom counter that grows with every inclusion and for which maximality fails: the fact is refused with its unscored source and would fit beside the scored one |
| `Pinned.PinnedContext` | src/cmpath/router.py:708-839 | refused only when the bare envelope does not fit; otherwise within the allowance; the late failure is impossible for counters that dropping empty lists cannot raise; the payload is what taking the pins one after another leads to |
| `Pinned.PinsAreTaken` | src/cmpath/router.py:744-822 | every pin has the next item, in pin order, or is counted as omitted; for an admitted pin each of the first facts is packed with its source cited, and each requested message is cited, or it is counted, and then it is gone from memory, the pin's share was used up, or adding it exceeded the allowance; nothing else is packed |
| `Pinned.PinsMaximal` | src/cmpath/router.py:794-814 | for a counter that grows with the payload, requested evidence that is on record and not cited in the final payload would not fit there either, unless the pin's share is used up or the pin shows no fact |
| `Pinned.EstimatedGrows` | src/cmpath/memory.py:56-58 | the default estimate is such a counter |
| `Pinned.FinishingMakesRoom` | src/cmpath/router.py:815-822 | the case it excludes: dropping the empty lists of a pin without facts makes room for evidence that was refused, even for a counter that grows |
| `Pinned.PinsSound` | src/cmpath/router.py:741-822 | for any counter the citations are exactly the packed evidence in order, no message is packed twice, no pin exceeds its share, and every packed fact's source is cited |
| `Pinned.PinsFit` | src/cmpath/router.py:741-828 | with such a counter the final count is within the allowance |
| `Pinned.EstimatedSettles` | src/cmpath/memory.py:56-58 | the default estimate is such a counter, so the final check at lines 827-828 of the router is unreachable with it |
| `Pinned.CustomCounterCanFailLate` | src/cmpath/router.py:823-828 | a custom counter with which the final check does fail |
| `Pinned.Pins.Put` | src/cmpath/router.py:388-421 | updating a pin keeps its place; a new one evicts the oldest at the bound; one pin per task |
| `LineEndings.LineEndingsToLF` | native/engine/engine.go:519-549 | the scan computes the piecewise conversion |
| `LineEndings.PieceByPiece` | native/engine/engine.go:519-592 | literals are copied byte for byte and no carriage return is left outside them |
| `LineEndings.PiecesAreCut` | native/engine/engine.go:519-592 | each piece read off the text: a literal goes to the first quote that is not doubled, a line comment to the end of its line, a block comment to the first star and slash after its own slash, anything else to where a literal or comment begins, or each to the end |
| `LineEndings.LfAt` | native/engine/engine.go:587-592 | what becomes of each character outside literals: a return and feed becomes a feed, a lone return becomes a feed, and every other one stays, moved forward by the pairs before it |
| `LineEndings.CheckoutIndependent` | native/engine/engine.go:510-549 | a script without carriage returns is given back after its feeds were turned into returns and feeds if and only if no literal, as the scanner cuts it, breaks a line |
| `LineEndings.BrokenLiteralDiffers` | native/engine/engine.go:510-549 | a script with a line break in a literal for which it does not |
| `LineEndings.Idempotent` | native/engine/engine.go:519-592 | if no line comment holds a lone carriage return, or no literal holds any, converting twice is converting once |
| `LineEndings.LoneReturnCanBeHarmless` | native/engine/engine.go:519-592 | a script that meets neither condition and for which it is all the same |
| `LineEndings.LoneReturnInComment` | native/engine/engine.go:567-575 | a script with one for which it is not |
| `LineEndings.NothingLeft` | native/engine/engine.go:519-592 | the result is free of carriage returns if and only if no literal holds one, and then converting again changes nothing |
| `LineEndings.OnePassIsTwo` | native/engine/engine.go:587-592 | the two replacements amount to one pass |
| `LineEndings.LiteralEnd` | native/engine/engine.go:554-566 | finds the end of a literal, doubled quotes included |
| `LineEndings.BlockCommentEnd` | native/engine/engine.go:579-584 | finds the end of a block comment; a slash, a star and a slash is a whole one |
| `Migration.Migrate` | src/cmpath/migrate.py:28-46 | the dependency loop ends; every path gets one task, after its parents and linked to exactly them; it fails if and only if the dependencies contain a cycle or name an unknown path |
| `Migration.NothingReady` | src/cmpath/migrate.py:31-33 | when nothing is ready there is a cycle or a missing parent |
| `Migration.OrderRulesOutCycles` | src/cmpath/migrate.py:29-40 | an order with parents first rules out both |
| `Publication.NeverOverwrites` | native/engine/maintenance.go:171-247 | in any interleaving of exporters, exclusive creators and crashes, an existing destination is replaced or removed only by the exporter whose own unfinished reservation it is |
| `Publication.OneSuccess` | native/engine/maintenance.go:207-247 | while nobody deletes the destination at most one exporter ever reports success, and from then on the destination is its complete archive |
| `Publication.StepKeeps` | native/engine/maintenance.go:145-202 | at most one reservation is held at a time and the destination is that reservation; a published archive stays |
| `Publication.DeletedReservationIsOverwritten` | native/engine/maintenance.go:254-257 | the case it excludes: a deleted reservation lets the rename replace another writer's file |
| `Publication.ReservationHappens` | native/engine/maintenance.go:207-245 | such a reservation is reached on a file system without hard links |
| `Publication.ContentsRespected` | native/engine/maintenance.go:145-202 | in any run, with deletions, no exporter changes the contents of a file other than the unfinished reservation it created itself |
| `Publication.EntryTaken` | native/engine/maintenance.go:145-247 | in any run, with deletions, that starts without reservations, an existing entry is taken only by a deleter, or by an exporter that reserved the free destination earlier in that run: by its rename, or by the removal of a clean-up that then read its own marker there |
| `Publication.LinksDoNotSuffice` | native/engine/maintenance.go:248-257 | even where every hard link call works, a destination that is deleted between link and inspection leads to the fallback, whose rename can replace another writer's file |
| `Publication.UndisturbedPublishes` | native/engine/maintenance.go:207-247 | with the destination free and its calls succeeding, an exporter publishes its archive: by link, by a move that does not replace, or by renaming over its reservation |
| `Publication.FailedRenameClearsUp` | native/engine/maintenance.go:145-152 | an undisturbed exporter whose rename fails removes its reservation, and the destination is free again |

## Left out

- SQLite itself, full-text ranking, write-ahead logging and busy timeouts: statements inside one transaction are taken as atomic, and search results as an arbitrary list.
- The `events` and `runtime_state` tables, timestamps other than `updated_at`, and task titles and aliases beyond their clock: no modelled decision reads them.
- JSON validity and UTF-8 checks of the engine's inputs, and the defaults filled in by `normalizeRequest`: a modelled request is already normalised.
- Unparseable stored values in a retention scan (their integrity errors), and the rowids of child tables inside a plan: the plan is the records themselves.
- `Turn`, `Tools` and `ModelCalls`: read-only listings of rows the model holds as maps.
- An already started lease's external effect: the code promises nothing about its atomicity.
- Admission.CommitSays: which of several true codes is reported is fixed by the operations' functions only, which check in the order of the code.
- Agent.Journal.Run: takes the journal of one request as its own object rather than as rows of the engine's database, runs resumes one after another, and treats any failed engine call as a crash before it; processes that overlap are the subject of `Workers` (tool calls) and `Dispatchers` (model dispatches).
- Dispatchers.SentAtMostOnce: policy `error` only, and model requests of a request id are journaled by the agent's loop only.
- Ingest.Store.Pass: the file marker and the parsed lines are given, one path is followed, and eviction of its cursor by the cursor cap, duplicates inside one pass and the per-event rendering of tool text are not claimed or modelled.
- Coalescer.Coalesce: a line carries at most one fragment, as the parser produces it.
- Packing.Context: the counter is a function of the payload, so a counter that changes its answer is not modelled there.
- Pinned.PinnedContext: the repeated counting that detects a changing counter is not modelled; a citation's spelling and the caller's own pinned input are parameters.
- Migration.Migrate: titles, messages, timestamps with two owners, waypoints and archiving of the imported paths.
- LineEndings.Idempotent: goes one way; the converse is false (`LineEndings.LoneReturnCanBeHarmless`).
- Ingest.Store.Heal: for a file in which different rows prepare to one content, and a window so full that healing pushes digests out of it, what is left is given in terms of the number of rows added.
- Ingest.Store.constructor: a window recorded under a larger cap is cut when the store is opened, not at its first write.
- Publication.NeverOverwrites: one destination; the temporary file, file and directory syncing and what a crash of the file system loses are not modelled.
- The schema rebuild of `native/engine/migrate.go`, the transports, SDK clients, command lines, routing decisions, `conformance/reference.py` and `src/cmpath/codex_memory.py`: plumbing, or repetitions of what is modelled.
