# Libredesk: protocols and algorithms, verified

This project models six parts of Libredesk in Dafny and proves what they are for.

- **Pausable agent runs** (`AgentTranscript`, `AgentRun`, `AgentPrompt`, `AgentApprovals`, `AgentSafety`,
  `AgentTheorems`, `AgentManager`, `AgentPaths`). A loop alternates model calls and tool calls, stops in the middle of a
  batch when a tool needs an agent's approval, is parked, claimed, decided and carried on. `AgentRun` is one run on its
  own, `AgentApprovals` the system under every interleaving of threads, clock, clearing and a changing tool table,
  `AgentManager` the objects that are updated in place, and `AgentPaths` ties what their methods promise to the steps of
  one thread of that system.
- **The WhatsApp inbound pipeline** (`KeyedLock`, `WhatsAppMedia`, `WhatsAppPipeline`, `WhatsAppLockPart`,
  `WhatsAppSafety`, `WhatsAppProgress`, `WhatsAppCompletion`, `WhatsAppHandlers`, `WhatsAppReopen`). A refcounted lock
  per key whose entries are deleted and created again, and on top of it deliveries that come at least once and creates
  by agents, as small-step threads. In `WhatsAppHandlers` the handlers themselves change the tables in place, and each
  carries a proof that it takes exactly the steps of its thread.
- **The embedding index** (`SeqFilter`, `VectorMath`, `EmbeddingCodec`, `EmbeddingIndex`, `EmbeddingMirror`,
  `EmbeddingHistory`, `EmbeddingManager`, `TagReconcile`). Stored bytes, cosine scores, top-k search, and the in-memory
  index as a mirror of its table under loads, transactions, removals, purges, sweeps and searches.
- **Sessions** (`Sessions`). Logins under a read lock, account changes under the write lock.
- **Upgrades** (`TextOrder`, `Semver`, `Upgrade`, `UpgradeHistory`). Migrations over any number of attempts that crash
  or fail.
- **Algorithms** (`BusinessHours`, `Utf8Trim`, `Contrast`, `WidgetConnection`).

Concurrent parts are machines whose state after a sequence of labels is a function of the labels. A label that is not
enabled changes nothing, so a lemma about all label sequences is about all interleavings. The model provider, tools,
database faults, clocks, fresh identifiers and the order of rows and map entries are chosen by the labels or by
parameters.

Assumptions. The run is stored and its approval read in one step, and the clock is read once while a run is parked
(`internal/ai/agent_approval.go:169-177`); without that, another thread could claim the run between the two. There is
one process, and one message id has one sender. `root` in the vector lemmas is any square root. Numbers are exact.

What the code does not promise in full, and exactly when it does:

- Tool-call ids come from the model and may repeat, so "exactly one answer per id" is stated as "as many answers as
  requests" (`EachCallAnsweredOnce`); an id that is used once has one answer.
- A search for a vector of norm zero returns before it looks at a chunk: its mismatch count is exact on every index if
  and only if the norm is not zero or no source type is asked for (`MismatchCountExact`).
- Account handlers change the account first and destroy its sessions afterwards. If that second call fails, sessions
  stay: the session promise holds if and only if no live session was left that way (`PromiseHoldsExactly`,
  `HandlerKeepsPromiseExactly`; `FailedDestroyLeavesSession` is such a run).
- The upgrade passes over a missing settings table when it records. Every history of crashes and failures re-runs only
  the migration not recorded yet if and only if the settings table is there at the start or the first migration creates
  it (`ResumesExactly`; `SecondRunsUnrecorded` is a run where it does not). An attempt that reached its end leaves nothing
  pending if and only if the table was there at the start or some migration creates it (`FinishedExactly`, and
  `CompletedExactly` for one attempt without a fault).
- A purge drops the tag vectors from memory before a delete that may fail. The index mirrors the table if and only if no
  row of a source unknown to it, never loaded or dropped by a purge and not written since, holds a whole element
  (`IndexMirrorsExactly`). The comment at `internal/ai/tagindex.go:70` says the next reconcile overwrites the rows left
  behind: it does so exactly for the tags that still exist and have a name (`ReconcileRepairsExactly`; `RowLeftBehind` is
  a run where a row stays).
- Agents reopen a conversation without its lock and without a look at the others. Afterwards no contact ever has two open
  conversations in an inbox if and only if, at that moment, no other one of the two was open and nobody under their lock
  was about to open one (`ReopenKeepsExactly`).
- The stored bytes of an embedding come back unchanged if and only if their number is a multiple of four
  (`LoadThenStore`).

## Model

| member | source | states |
|---|---|---|
| AgentTranscript.CopilotMessages | internal/ai/copilot.go:74-86 | the first messages are the context, if there is one, and the text and images of what user and assistant said, in order; requests and tool messages are dropped whatever the history holds |
| AgentTranscript.RequestOpens | internal/ai/agent_approval.go:139-141 | appending a request to a complete transcript leaves exactly its calls open |
| AgentTranscript.AnswerAdvances | internal/ai/agent_approval.go:187-194 | an appended answer answers exactly the next open call |
| AgentTranscript.LastAnswerCompletes | internal/ai/agent_approval.go:164-185 | after the last call of a batch is answered, the whole transcript is complete again |
| AgentTranscript.EachCallAnsweredOnce | internal/ai/agent_approval.go:164-194 | in a complete transcript every id is answered exactly as often as it is asked for |
| AgentRun.NewRunOk | internal/ai/agent.go:39-87 | a new run over plain messages satisfies the run invariant |
| AgentRun.MoveKeeps | internal/ai/agent_approval.go:120-185 | every move keeps the run invariant, and the model is asked only about a complete transcript |
| AgentRun.MoveDescends | internal/ai/agent_approval.go:128-184 | the pair (steps left, unanswered calls) falls lexicographically with every move that does not stop |
| AgentRun.AdvanceKeeps | internal/ai/agent_approval.go:120-185 | a whole stretch shows the model complete transcripts only, stops for approval exactly at an unanswered guarded call, and pays one step per model call with one forced call at most |
| AgentRun.ShownTranscriptsGrow | internal/ai/agent_approval.go:120-162 | each transcript shown in a stretch properly extends the one shown before |
| AgentRun.EndIsTheModels | internal/ai/agent_approval.go:128-162 | a stretch that is not parked ends on the model's last word: its text, its failure, or no text when it was forced to answer |
| AgentSafety.NextKeeps | internal/ai/agent_approval.go:49-247 | every step of every thread, of the clock and of the tool table keeps the invariants of the parked map, of the log and of each held run |
| AgentTheorems.ModelSeesAnsweredTranscripts | internal/ai/agent_approval.go:49-77 | through any sequence of pauses, decisions and re-parks, in every transcript the model is shown the answers to a request follow it by id in the order of its calls, no answer stands elsewhere, and every id is answered as often as it is asked for |
| AgentTheorems.ParkedRunsAwaitTheNextCall | internal/ai/agent_approval.go:164-209 | every parked run has its first NextToolCall calls answered, the next one is of a custom tool that needs approval, whose number and version the run carries; it lives ten minutes, its key is its id, and no agent has two on one conversation and surface |
| AgentTheorems.NewestRunIsUnique | internal/ai/agent_approval.go:93-108 | two parked runs of one scope are the same run, so the scan for the newest does not depend on map order |
| AgentTheorems.GuardedToolsRunOnlyWhenGranted | internal/ai/agent_approval.go:49-66 | with approvals on, before each execution of a custom tool that needs approval the log holds, in this order, the very run that executes it parked at that call, its decision by the scope's own agent with approval, and the tool's record found enabled, of that name and version and open to the surface |
| AgentTheorems.EachCallDecidedAtMostOnce | internal/ai/agent_approval.go:211-225 | over any interleaving each parked call is decided at most once, by its own agent, within ten minutes |
| AgentTheorems.DeclinedCallsNeverRun | internal/ai/agent_approval.go:56-65 | a declined call is never executed, and no call of a run is executed twice |
| AgentTheorems.BudgetSurvivesPauses | internal/ai/agent_approval.go:128-152 | a run calls the model at most MaxSteps + 1 times over all its pauses |
| AgentTheorems.ParkedRunsClose | internal/ai/agent_approval.go:110-118 | its agent's claim, clearing its scope and reaching its expiry each close a parked run |
| AgentTheorems.ClosedRunsAreNeverDecided | internal/ai/agent_approval.go:211-225 | a run that was claimed, cleared or is past its expiry, even if it is still in the map, gets no decision from then on, whatever it had before |
| AgentTheorems.AnyToolsAnyTime | internal/ai/agent_approval.go:227-239 | at any moment the tool records may become any others and any time may pass, so the results above hold for every such change |
| AgentTheorems.StretchIsAPath | internal/ai/agent_approval.go:120-185 | a thread left alone in the interleaving model does exactly what the loop of a single run does |
| AgentPaths.RunIsAPath | internal/ai/agent.go:31-37 | whatever the manager promises of a new run is what the start and the steps of one thread lead to |
| AgentPaths.ResumeIsAPath | internal/ai/agent_approval.go:49-77 | whatever the manager promises of a resume is what the claim, the passing time, the decision and the further steps of one thread lead to, with the decision in the log |
| AgentManager.DecisionMeans | internal/ai/agent_approval.go:54-76 | an approval whose tool record changed ends the run; otherwise the call gets, under its own id, the output of its tool or the refusal; an error of the rest is reported with the decision |
| AgentManager.NewAgentRun | internal/ai/agent.go:39-87 | the run starts from one system message, of the prompt and the trimmed workspace instructions if there are any, followed by the history |
| AgentManager.Manager.RunAgentWithApprovals | internal/ai/agent.go:31-37 | a new run goes where the stretch of its first messages goes |
| AgentManager.PendingRun.constructor | internal/ai/agent.go:78-86 | a new run object holds the scope, registry, messages and defaulted budget and nothing else |
| AgentManager.PendingRun.AppendToolResult | internal/ai/agent_approval.go:187-194 | appends the answer to the call and changes nothing else |
| AgentManager.PendingRun.ExecuteToolCall | internal/ai/agent.go:89-103 | the output of the tool, or the fixed texts for an unknown tool and for a failure |
| AgentManager.Manager.DeleteExpiredAgentRunsLocked | internal/ai/agent_approval.go:241-247 | exactly the runs whose expiry is after now stay |
| AgentManager.Manager.ClearPendingAgentRuns | internal/ai/agent_approval.go:110-118 | exactly the runs of other scopes stay |
| AgentManager.Manager.StoreAgentRun | internal/ai/agent_approval.go:196-209 | stores the run if and only if no live run of its scope is parked, in any map order |
| AgentManager.Manager.ClaimAgentRun | internal/ai/agent_approval.go:211-225 | removes and returns a live run of the agent's own, or says which of the two reasons refused it |
| AgentManager.Manager.PendingAgentApproval | internal/ai/agent_approval.go:93-108 | returns a live run of the scope that no other live run of the scope is newer than, or nothing if there is none |
| AgentManager.Manager.ValidateApprovedTool | internal/ai/agent_approval.go:227-239 | true exactly when the tool record still matches the parked call and its surface |
| AgentManager.Manager.ParkRun | internal/ai/agent_approval.go:169-177 | stamps id, tool and lifetime and stores the run unless its scope is taken |
| AgentManager.Manager.AnswerOpenCalls | internal/ai/agent_approval.go:164-183 | answers the calls in order up to the first of a custom tool that needs approval, if approvals are on, or all of them |
| AgentManager.Manager.ProcessAgentToolCalls | internal/ai/agent_approval.go:164-185 | the in-place loop answers the batch in order with the output of each tool, all of it or up to the first call whose registry entry needs approval, and agrees with the stretch of the run in all three outcomes |
| AgentManager.Manager.TakeStep | internal/ai/agent_approval.go:128-150 | one turn of the loop keeps the end of the stretch and spends one step |
| AgentManager.Manager.ContinueAgentRun | internal/ai/agent_approval.go:120-162 | the loop ends the way the stretch of the run ends, with that result and those parked runs |
| AgentManager.Manager.ApplyDecision | internal/ai/agent_approval.go:54-76 | a changed tool ends the run untouched; otherwise the call gets its output or the refusal and the run goes on from there |
| AgentManager.Manager.ResumeAgentRun | internal/ai/agent_approval.go:49-77 | claiming at one time and deciding, carrying on and perhaps parking at a later one, with the parked map that results and an error of the rest reported as a result; the parked runs stay distinct and awaiting approval, as every other method leaves them |
| KeyedLocks.LockIsSafe | cmd/whatsapp_ingester.go:108-129 | in every interleaving one holder per key, every ticket names the entry now in the map, counts are exact, and with no thread active the map is empty |
| KeyedLocks.MutualExclusion | cmd/whatsapp_ingester.go:108-129 | two holders of one key are the same thread although entries are deleted and created again |
| KeyedLocks.NothingLeftBehind | cmd/whatsapp_ingester.go:119-128 | with no thread registered, waiting, holding or releasing, no entry is left |
| KeyedLocks.BlockedByHolder | cmd/whatsapp_ingester.go:118-118 | a thread that cannot take a mutex waits for one that holds the same key |
| KeyedLocks.StepsGoThrough | cmd/whatsapp_ingester.go:108-129 | after any interleaving a thread can come to wait, takes the mutex exactly if no thread holds its key, can free it, and can leave |
| KeyedLockObject.KeyedLock.Register | cmd/whatsapp_ingester.go:109-116 | looks up or creates the entry of the key and counts the thread in, keeping map, counters and mutexes in step with the model |
| KeyedLockObject.KeyedLock.Acquire | cmd/whatsapp_ingester.go:118-118 | takes the entry's mutex and nothing else |
| KeyedLockObject.KeyedLock.Unlock | cmd/whatsapp_ingester.go:121-121 | frees the entry's mutex and nothing else |
| KeyedLockObject.KeyedLock.Deregister | cmd/whatsapp_ingester.go:122-127 | counts the thread out and deletes the entry exactly when it was the last |
| WhatsAppMedia.FetchWhatsAppAttachments | cmd/whatsapp_webhook.go:333-408 | a body is the first unbroken attempt's; an error is the third attempt's and not permanent; nothing at all means too large, empty, permanently broken or cancelled |
| WhatsAppMedia.FetchedOutright | cmd/whatsapp_webhook.go:333-408 | what a body, an error and a placeholder say of the calls made: the body is the download's own, each earlier attempt broke, and a placeholder stands for too large, empty, or a third error that no retry would change |
| WhatsAppSafety.EachMessageStoredOnce | cmd/whatsapp_webhook.go:179-293 | under any interleaving of deliveries, redeliveries and workers no message id is stored twice and no row stands for a cancelled download |
| WhatsAppSafety.NilMeansStoredOrDropped | cmd/whatsapp_webhook.go:128-176 | a delivery that returned nil has every message in the table or dropped for a coded reason that held: its type is one of the three ignored or a system event, its inbox is there but no enabled inbox has its number, or its contact was among those disabled |
| WhatsAppSafety.DroppedExactlyThen | cmd/whatsapp_webhook.go:197-219 | a worker drops for want of an inbox exactly when none takes the message as it looks, and for the contact exactly when that is disabled then |
| WhatsAppSafety.OneOpenConversation | cmd/conversation.go:945-985 | ingests and agent-initiated creates together never leave two open conversations of one contact and inbox |
| WhatsAppReopen.ReopenKeepsExactly | internal/conversation/conversation.go:1095-1112 | after an agent reopens a conversation every run keeps one open conversation per contact and inbox if and only if no other one was open and no thread was past its look and about to open one |
| WhatsAppSafety.RunKeeps | cmd/whatsapp_webhook.go:179-293 | every step of every thread keeps the invariants of both locks and of both tables |
| WhatsAppProgress.StepDescends | cmd/whatsapp_webhook.go:179-293 | a step of a thread ends it or leaves it strictly less to do, and moves no other thread |
| WhatsAppProgress.NoDeadlock | cmd/whatsapp_webhook.go:192-238 | while a thread is unfinished some thread can step, since the sender lock is always taken first |
| WhatsAppCompletion.WorkIsBounded | cmd/whatsapp_webhook.go:128-293 | with no new deliveries and creates, the steps taken and the work left never exceed the work there was, whatever is cancelled, closed or switched meanwhile |
| WhatsAppCompletion.EverythingEnds | cmd/whatsapp_webhook.go:128-293 | from every reachable state and however the threads go on, they take at most as many steps as there is work left, and none can step exactly when all are finished |
| WhatsAppCompletion.AllCanFinish | cmd/whatsapp_webhook.go:128-293 | from every such state some run of steps finishes all threads |
| WhatsAppCompletion.AnythingMayCome | cmd/whatsapp_webhook.go:128-176 | at any moment any number of deliveries and creates may come in together, any threads be cancelled, conversations be closed, and inboxes and contacts be switched, so the results over all runs leave none of that out |
| WhatsAppHandlers.Desk.ResolveInbox | cmd/whatsapp_webhook.go:528-565 | the delivery's own inbox if it is enabled and has the number named, else an enabled one with that number; none enabled exactly if the delivery's is there and no inbox takes the message; not there otherwise |
| WhatsAppHandlers.Desk.ResolveTarget | cmd/whatsapp_webhook.go:197-219 | the thread's own steps from its sender's lock to a known contact and inbox, or to an error or a drop |
| WhatsAppHandlers.Desk.FetchMedia | cmd/whatsapp_webhook.go:221-236 | a duplicate ends as stored before any download; otherwise the thread goes through its download step |
| WhatsAppHandlers.Desk.Download | cmd/whatsapp_webhook.go:230-236 | the download is the thread's step with its media and cancel flag: a placeholder only for a coded reason, a cancelled context never goes on, and nothing else gives up unless every attempt breaks |
| WhatsAppHandlers.Desk.FindConversation | cmd/whatsapp_webhook.go:240-245 | an open conversation of the pair, else the one that may be reopened; none exactly if there is neither |
| WhatsAppHandlers.Desk.ChooseConversation | cmd/whatsapp_webhook.go:240-265 | the thread's steps to the open conversation if there is one, else to the one that may be reopened, with none opened in either case, else to one new conversation of the pair |
| WhatsAppHandlers.Desk.InsertMessage | cmd/whatsapp_webhook.go:267-291 | the thread's steps over the insert and the reopening, with the row and the conversation they leave |
| WhatsAppHandlers.Desk.StoreMessage | cmd/whatsapp_webhook.go:238-291 | all of it under the conversation lock, from taking it to leaving it |
| WhatsAppHandlers.Desk.IngestWhatsAppMessage | cmd/whatsapp_webhook.go:179-293 | a path of its thread in the machine with no step of another, which keeps all its invariants and stores at most one row, of this message with its media, in the conversation of its contact and inbox that was open, else the one that could be reopened, else a new one; a duplicate, a drop and a cancelled ingest change nothing; nothing failing means stored |
| WhatsAppHandlers.Desk.ProcessWhatsAppPayload | cmd/whatsapp_webhook.go:128-176 | the thread's path from delivery to receipt: every message gets its fate even after a failure, nil exactly when none failed, and a redelivery of stored messages changes nothing |
| WhatsAppHandlers.Desk.HandleCreateConversation | cmd/conversation.go:945-1027 | the agent thread's path from start to end: creates only if the pair has none open, under the lock ingests take; a failed first message leaves the conversations as they were unless the delete fails too |
| VectorMath.ComputeDot | internal/ai/embedding.go:357-363 | the loop computes the sum of products |
| VectorMath.DotAddsUp | internal/ai/embedding.go:357-363 | the dot product of nothing is zero and each further coordinate adds its product |
| VectorMath.ComputeNorm | internal/ai/embedding.go:365-371 | the loop computes the root of the sum of squares |
| VectorMath.CauchySchwarz | internal/ai/embedding.go:357-371 | the square of the dot product is at most the product of the sums of squares |
| VectorMath.NormIsRoot | internal/ai/embedding.go:365-371 | a norm is not negative, squares to the sum of squares, and is zero exactly for a zero vector |
| VectorMath.ScoreInRange | internal/ai/embedding.go:117-117 | every score of vectors with non-zero norms lies in [-1, 1] |
| VectorMath.ScoreIgnoresScale | internal/ai/embedding.go:117-117 | scaling the query by a positive factor leaves the score as it is |
| EmbeddingCodec.StoreThenLoad | internal/ai/embedding.go:340-355 | reading back stored bytes gives every vector bit for bit |
| EmbeddingCodec.LoadThenStore | internal/ai/embedding.go:340-355 | storing what was read gives the bytes up to the last whole element, and all of them if and only if their number is a multiple of four |
| EmbeddingCodec.ValueOfPattern | internal/ai/embedding.go:340-355 | the number each finite 32-bit pattern stands for, by sign, exponent and fraction |
| EmbeddingCodec.SerializeEmbedding | internal/ai/embedding.go:340-346 | the buffer filled in place holds the four little-endian bytes of every element |
| EmbeddingCodec.DeserializeEmbedding | internal/ai/embedding.go:348-355 | the array filled in place holds the word of every four bytes |
| EmbeddingIndex.Index.constructor | internal/ai/embedding.go:41-43 | a new index is empty |
| EmbeddingIndex.Index.ReplaceAll | internal/ai/embedding.go:45-49 | the chunks are exactly the given ones |
| EmbeddingIndex.Index.ReplaceWhere | internal/ai/embedding.go:51-63 | the chunks that do not match stay in order, followed by the added ones |
| EmbeddingIndex.Index.ReplaceSourceIds | internal/ai/embedding.go:65-72 | exactly the chunks of that type with one of the ids go, and the added ones follow |
| EmbeddingIndex.Index.RemoveSource | internal/ai/embedding.go:74-76 | exactly the chunks of one source go |
| EmbeddingIndex.Index.RemoveSourceType | internal/ai/embedding.go:78-80 | exactly the chunks of one type go |
| EmbeddingIndex.Index.Search | internal/ai/embedding.go:95-131 | every hit is the type, id and text of a chunk of an asked type, equal dimension and non-zero norm, its score times the two norms is the dot product, hits come best first, as many as asked for or all, and every such chunk left out scores no higher; the mismatch count is the number of chunks of an asked type and another dimension; nothing for a query of norm zero |
| EmbeddingIndex.TopKBestFits | internal/ai/embedding.go:114-131 | the same of every answer that is a top k of the scored chunks, whatever the sort does with ties |
| EmbeddingIndex.TopKScoresUnique | internal/ai/embedding.go:126-130 | the returned scores are determined position by position however the sort leaves ties |
| EmbeddingIndex.ScoresInRange | internal/ai/embedding.go:114-123 | whatever a search returns scores in [-1, 1] when the recorded norms are the vectors' own |
| EmbeddingIndex.SearchIgnoresScale | internal/ai/embedding.go:95-131 | scaling the query by a positive factor changes neither scored chunks nor mismatch count |
| EmbeddingIndex.MismatchCountExact | internal/ai/embedding.go:99-112 | the count is exact on every index if and only if the query norm is not zero or no type is asked for |
| EmbeddingMirror.StoredThenLoaded | internal/ai/embedding.go:191-232 | storing built chunks and loading the rows gives the chunks, empty vectors aside |
| EmbeddingMirror.LoadedWithoutSources | internal/ai/embedding.go:215-218 | deleting rows of sources deletes exactly those sources' chunks from what a load would build |
| EmbeddingMirror.SwapMirrors | internal/ai/embedding.go:204-233 | replacing rows in the table and chunks in memory keeps the one a mirror of the other |
| EmbeddingMirror.BootMirrors | internal/ai/embedding.go:252-278 | a boot load of the rows in any order mirrors the table |
| EmbeddingMirror.SearchSeesTable | internal/ai/embedding.go:95-131 | a search of a mirroring index may return exactly what a search of the table itself may return |
| EmbeddingMirror.MirrorsExactly | internal/ai/embedding.go:252-278 | an index that mirrors the rows of its known sources mirrors the table if and only if the other rows load as nothing |
| EmbeddingMirror.NextKeeps | internal/ai/embedding.go:133-286 | every step of boot, transaction, failure, removal, swap, purge, sweep and search keeps the index a mirror of the rows it knows |
| EmbeddingMirror.ReturnedTells | internal/ai/embedsource.go:145-159 | the ids a sweep's delete returns, repeated or not and in any order, name exactly the sources whose rows went |
| EmbeddingHistory.IndexMirrorsExactly | internal/ai/tagindex.go:66-76 | at every step of every run the index mirrors the table, changes still on their way to memory aside, if and only if no row of a source unknown to it holds a whole element |
| EmbeddingHistory.IndexMirrorsTable | internal/ai/embedding.go:160-286 | after a successful load and while no purge has failed to delete its rows, at every step outside a purge the index mirrors the table, or the table just before the one commit or the rest of the sweep that is not in memory yet |
| EmbeddingHistory.LogReplays | internal/ai/embedding.go:204-233 | the table is always the result of the changes made, each whole and in order, and memory lags behind by the last one at most |
| EmbeddingHistory.FailedTransactionsChangeNothing | internal/ai/embedding.go:206-229 | while no change is made and no boot load completes, table and index stay what they were, however many transactions fail |
| EmbeddingHistory.AnswersSeeSnapshots | internal/ai/embedding.go:138-158 | every search is answered after the boot load ended, with a top k of rows that stood in the table together after some number of whole changes; of all of them, after a load, outside purges and sweeps and if no purge failed |
| EmbeddingManager.TransactionIsAPath | internal/ai/embedding.go:204-233 | a replacement left alone takes the machine to rows and chunks replaced and the sources known |
| EmbeddingManager.FailureIsAPath | internal/ai/embedding.go:206-229 | a replacement whose begin, delete, any insert or commit fails takes the machine back to where it was |
| EmbeddingManager.RemovalIsAPath | internal/ai/embedding.go:242-250 | a removal left alone takes the machine where the method goes |
| EmbeddingManager.PurgeIsAPath | internal/ai/tagindex.go:66-76 | the same for a purge, whether or not its delete succeeds |
| EmbeddingManager.SweepIsAPath | internal/ai/embedsource.go:140-162 | the same for a sweep over the ids its delete returned, repeated or not |
| EmbeddingManager.LoadIsAPath | internal/ai/embedding.go:252-286 | the same for the boot load, from the rows in any order |
| EmbeddingManager.FailedLoadIsAPath | internal/ai/ai.go:177-182 | a boot load that fails lets searches through and changes nothing else |
| EmbeddingManager.SearchIsAPath | internal/ai/embedding.go:138-158 | whatever a search of the index may return is answered, at any moment after the boot load and in any phase |
| EmbeddingManager.Manager.EmbedSource | internal/ai/embedding.go:191-201 | every embedded text becomes a chunk of the source with the norm of its vector |
| EmbeddingManager.Manager.CommitEmbeddings | internal/ai/embedding.go:204-233 | succeeds exactly when no call fails, then the rows and chunks of the sources are gone, all others stay in order, and the new chunks follow with their texts, bytes and dimensions; a failure changes neither; the mirror is kept |
| EmbeddingManager.Manager.RemoveEmbeddings | internal/ai/embedding.go:235-250 | drops rows and chunks of the source, or on a fault neither; the mirror is kept |
| EmbeddingManager.Manager.LoadIndex | internal/ai/embedding.go:252-286 | each row that holds a whole element becomes its chunk with the vector read from its bytes and that norm, in order; a mirror of the table, or on a fault as it was |
| EmbeddingManager.Manager.PurgeEmbeddings | internal/ai/tagindex.go:66-76 | memory forgets the type and then the rows go; a mirror stays one if and only if the delete succeeds or the rows hold no whole element |
| EmbeddingManager.Manager.SweepOrphans | internal/ai/embedsource.go:140-162 | rows of the orphans go and each returned source is forgotten once; the mirror is kept |
| TagReconcile.ChunksBySourceId | internal/ai/embedding.go:81-92 | the loop maps each source to its last chunk |
| TagReconcile.DiffTagIndex | internal/ai/tagindex.go:115-135 | the named tags whose name the index does not hold, in order, and ascending exactly the indexed ids no named tag has |
| TagReconcile.ReconcileTags | internal/ai/tagindex.go:11-63 | goes through exactly when tags and index differ and no call fails, and then every named tag's last chunk has its name, no other tag is in the index, and chunks and rows of other types are as they were; otherwise nothing changes; the mirror is kept |
| TagReconcile.ReconcileRepairsExactly | internal/ai/tagindex.go:70-71 | after a reconcile the index mirrors the table if and only if every row it missed that holds an element was of a tag that still has a name |
| TagReconcile.ReconcileSettles | internal/ai/tagindex.go:25-29 | a reconcile that went through leaves the next one of the same tags nothing to do |
| TagReconcile.RowLeftBehind | internal/ai/tagindex.go:70-71 | a failed purge whose tag is then deleted leaves a row that the next reconcile does not see |
| Sessions.NextKeeps | cmd/middlewares.go:328-344 | every step of logins, changes, faults and expiry keeps the lock, the check under the read lock and the session facts |
| Sessions.LockAdmits | cmd/middlewares.go:328-344 | any number of logins are let in while no handler writes, and a handler exactly when nobody is inside |
| Sessions.PromiseHoldsExactly | cmd/middlewares.go:328-344 | with no write-locked handler running, every live session is of an enabled, undeleted agent and newer than its last change, if and only if no live session outlived a failed call to destroy it |
| Sessions.PromiseWithoutFailures | cmd/middlewares.go:328-344 | in runs where destroying sessions does not fail the promise holds whenever no such handler runs |
| Sessions.SavedAfterLastClear | cmd/users.go:299-309 | at every moment and whatever failed, a live session is newer than its agent's last change whose sessions were destroyed |
| Sessions.SessionsKnowThePassword | cmd/login.go:45-60 | unless a destroy failed, a live session that was opened with a password was opened with the one its account has now |
| Sessions.HandlerKeepsPromiseExactly | cmd/users.go:299-309 | one handler keeps the promise if and only if it revokes nothing, or the sessions are destroyed, or the failed call left none |
| Sessions.FailedDestroyLeavesSession | cmd/users.go:299-309 | a run after which a disabled agent still has a session |
| Sessions.HandledState | cmd/users.go:299-364 | accounts, sessions and leftovers after one handler, in each of its outcomes |
| Sessions.LoginState | cmd/login.go:45-60 | a login saves exactly one session, of a permitted account, or nothing |
| Sessions.App.HandleLogin | cmd/login.go:45-60 | a session is saved exactly if the account is enabled and not deleted, the login came over single sign-on or with the account's password, and the store works; it is the only one added; the steps are those of the machine |
| Sessions.App.DestroyUserSessions | cmd/users.go:305-309 | the sessions of the user go, all or all but those a fault leaves |
| Sessions.App.HandleUpdateAgent | cmd/users.go:268-309 | password and state of this account alone become the given ones; on a new password or a disabled account its sessions go, all or all but those a fault leaves; the steps are those of the machine |
| Sessions.App.HandleDeleteAgent | cmd/users.go:340-364 | the same for a soft delete, which always ends the sessions |
| Sessions.App.HandleSetPassword | cmd/users.go:473-500 | the same for a password reset: the account has the new password and its sessions go |
| Semver.CompareTotal | cmd/upgrade.go:113-118 | of two versions exactly one of below, same and above holds, and same means equal |
| Semver.CompareTransitive | cmd/upgrade.go:113-118 | below is transitive, over numeric and textual pre-release identifiers |
| Semver.PrecedenceRules | cmd/upgrade.go:113-118 | major, minor and patch decide in this order, a pre-release is below its release, and of two lists of identifiers the first difference decides, else the longer is above |
| Upgrade.MigrationsAscend | cmd/upgrade.go:32-54 | the list of migrations is strictly ascending |
| Upgrade.SuffixIsFilter | cmd/upgrade.go:113-120 | in an ascending list the suffix from the first version above the recorded one is everything above it |
| Upgrade.GetPendingMigrations | cmd/upgrade.go:103-122 | the loop with its cut returns every listed version above the recorded one |
| UpgradeHistory.UpgradesKeepOrder | cmd/upgrade.go:83-147 | from any database and over any crashes and failures: each attempt runs in order everything above the last record, each record directly follows its run, whatever comes after a record is above it, and what is pending is what lies above the last record |
| UpgradeHistory.RecordedNeverRunsAgain | cmd/upgrade.go:105-122 | no recorded migration runs again and the records ascend |
| UpgradeHistory.UpgradesResume | cmd/upgrade.go:83-98 | with the settings table there in time, each migration that runs is the first one not recorded, the records are the pending list in order, and the rest is what is still pending |
| UpgradeHistory.SecondRunsUnrecorded | cmd/upgrade.go:89-97 | without a table the second migration runs with the first not recorded, and after a crash the first runs again |
| UpgradeHistory.ResumesExactly | cmd/upgrade.go:83-98 | every history from a database resumes at the first unrecorded migration if and only if the table is there or the first migration creates it |
| UpgradeHistory.AttemptIsAPath | cmd/upgrade.go:84-98 | the loop of one attempt takes exactly the steps of the machine |
| UpgradeHistory.FinishedExactly | cmd/upgrade.go:83-100 | after any history, an attempt that reached its end leaves nothing pending if and only if the table was there at the start or some migration creates it; otherwise everything stays pending |
| Upgrade.CompletedExactly | cmd/upgrade.go:89-97 | a completed upgrade leaves nothing pending if and only if there was nothing to run or a settings table existed or was created; otherwise everything stays pending |
| Upgrade.Database.RecordMigrationVersion | cmd/upgrade.go:140-147 | appends the version, or changes nothing and says whether the table is missing |
| Upgrade.Database.Upgrade | cmd/upgrade.go:58-101 | runs and records the pending list in order, and at a fault has recorded everything before it |
| BusinessHours.ClockOrder | cmd/widget_campaign.go:205-217 | times of day compare as text exactly as their minutes do |
| BusinessHours.ComparisonsAreShifts | cmd/widget_campaign.go:209-217 | the text comparisons are membership in the day's shift or in the previous day's overnight shift |
| BusinessHours.WithinIsCovered | cmd/widget_campaign.go:174-217 | for well-formed hours the check is: today is no holiday and some shift that starts on a day that is no holiday covers this minute of the absolute line |
| BusinessHours.HolidayOrderIsIrrelevant | cmd/widget_campaign.go:196-203 | only which days are holidays matters |
| BusinessHours.CampaignWithinHours | cmd/widget_campaign.go:174-207 | true for settings that are always open, an error for none found or none that parse, and otherwise exactly if today is no holiday and the shift that the weekday's hours give to today or yesterday, neither a holiday, covers this minute; the loop over the holidays computes that |
| Utf8Trim.PrefixValid | internal/ai/tokenizer.go:67-75 | in valid text a prefix is valid exactly when it does not end before a tail byte |
| Utf8Trim.ShortTails | internal/ai/tokenizer.go:71-73 | at most three tail bytes follow one another |
| Utf8Trim.EncodedIsValid | internal/ai/tokenizer.go:67-75 | the concatenated encodings of any code points are valid text |
| Utf8Trim.ValidIsEncoded | internal/ai/tokenizer.go:67-75 | and any valid text is such a concatenation |
| Utf8Trim.TrimToRuneBoundary | internal/ai/tokenizer.go:67-75 | the longest valid prefix of at most n bytes, at most three bytes below n; of any bytes only those between 0x80 and 0xBF are given up |
| Contrast.WorstIsLeast | cmd/helpcenter.go:2080-2087 | the running minimum is the least contrast over the backgrounds and is one of them |
| Contrast.ChosenIsBetter | cmd/helpcenter.go:2076-2093 | the chosen colour has at least the worst-case contrast of the other over the backgrounds, and light is chosen exactly when dark does not |
| Contrast.OneBackgroundBound | cmd/helpcenter.go:2122-2124 | on one background the chosen contrast squared is at least 1.05 / (L_dark + 0.05) |
| Contrast.ReadableOn | cmd/helpcenter.go:2078-2093 | light exactly if all colours parse and white has more contrast with every background than dark has with some one of them, else dark |
| WidgetConnection.OneClientAtATime | cmd/widget_ws.go:127-213 | for any frames at most one client is registered at a time, frames act only for its user, none is left at the end, and at most ten were added |
| WidgetConnection.EachClientRemovedOnce | cmd/widget_ws.go:127-213 | each client the connection added is removed exactly once |
| WidgetConnection.WindowBound | cmd/widget_ws.go:103-116 | in any window of length T at most floor(T / interval) + 1 frames of a kind pass, however the clock moves |
| WidgetConnection.PassesExactly | cmd/widget_ws.go:103-116 | after any frames, a timed frame passes exactly when someone is joined or it is a ping, and none of its kind passed before or the last one at least 50 ms ago, a second for page visits and pings; then it acts for the joined user |
| WidgetConnection.JoinsExactly | cmd/widget_ws.go:159-181 | each of the first ten joins removes the client before and then registers the new one, removes it again if it cannot be told, or is refused; an eleventh ends the connection |
| WidgetConnection.EndsExactly | cmd/widget_ws.go:143-156 | a connection ends when a frame cannot be read or its client is closed; an unknown frame does nothing |
| WidgetConnection.Connection.Allow | cmd/widget_ws.go:103-116 | passes a frame if and only if none of its kind passed before or its interval has gone by since the last that did, and remembers it then |
| WidgetConnection.Connection.HandleInboxJoin | cmd/widget_ws.go:273-305 | a join that fails before or after the client is added leaves none registered |
| WidgetConnection.Connection.HandleTimed | cmd/widget_ws.go:173-209 | typing and page visits need a joined user before the throttle is asked, pings do not |
| WidgetConnection.Connection.Serve | cmd/widget_ws.go:127-213 | the loop with its breaks and the deferred removal does what the turns over the frames do |

## Left out

- AgentTranscript.EachCallAnsweredOnce: counts answers per id instead of promising one, because the model may repeat an id.
- UpgradeHistory.UpgradesResume: holds where the settings table is there in time, which ResumesExactly shows to be the exact condition; UpgradesKeepOrder is what holds without it.
- BusinessHours.WithinIsCovered: for hours written HH:MM from 00:00 to 24:00 or left empty; other texts compare as text and name no minute.
- Contrast.OneBackgroundBound: takes luminances as given; the power function behind them is not modelled.
- EmbeddingIndex.Index.Search: scores are exact reals; rounding, infinities and NaN of float32 are not modelled, and the library sort is represented by a sort with the same promise.
- WhatsAppSafety.NilMeansStoredOrDropped: status and template events of a delivery are one flag that says whether any of them failed.
- EmbeddingHistory.AnswersSeeSnapshots: a search is answered at one moment; that the query's own embedding may take a while before it is not modelled.
- TagReconcile.ReconcileRepairsExactly: the diff and the replacement are taken together; in between only a purge can change the tags' vectors, and then the reconcile gives up. Two tags never share an id (`ReconcileSettles`).
- Chunks are only ever added for the sources that are replaced, as every caller of `commitEmbeddings` does; the knowledge-base delete is a removal whose transaction also deletes the item.
- Generation counters, fingerprints and the content chunker, which decide when a source is embedded again.
- The stream queue's acknowledgement and reclaim, and jobs that do not parse and are dropped.
- The moved-number system event beyond its success, contact upserts, message content and attachments' names. Inboxes and contacts are switched by steps of their own at any moment; errors of an inbox's configuration are one failure.
- WhatsAppCompletion.EverythingEnds: counts steps that change something; a thread that is never scheduled, or whose environment never answers usefully, is not.
- WhatsAppHandlers.Desk.IngestWhatsAppMessage: says what the handler does while no other thread holds one of the two locks; the interleavings are those of the machine whose steps it takes. Likewise the other methods of the desk.
- WhatsAppSafety.OneOpenConversation: of the status changes agents make outside the lock only closing a conversation is a step. An agent who reopens one is not, since the program does not look for another open conversation of the pair then and the promise can fail; ReopenKeepsExactly says when it does not.
- Reassignment, CSAT and unassignment of conversations.
- The string key of the conversation lock is a pair of contact and inbox.
- Request decoding, permission checks and self-deletion, which end a handler before it changes an account; caches and websocket kicks.
- The password change of the command line program, which runs in another process.
- `stripCodeFence`, logging, translations and the scope query of a parked run.
- Parsing of version texts and of hex colours, calendar arithmetic and time zones: versions are parsed, days are numbered.
- Waiting writers blocking new readers of the session lock, and fairness of mutexes in general.
