# A verified model of Nexora AgentOS

Nexora AgentOS runs agents durably: a worker may die at any moment, a person may
have to approve a tool call, another worker may take over, and the run must still
end as if none of that had happened. This project models the parts of the
repository where that is hard to see from the code, and proves what they promise.

Run `dafny verify dfyconfig.toml` to check all of it (Dafny 4.11).

| file | models |
|---|---|
| `ModelLoop.dfy` | the agent's loop as it would run undisturbed: a function from responses and tool results to an outcome |
| `AnswerCache.dfy` | the workspace answer cache, exact and by similarity, against the history of saves |
| `ExecutorStore.dfy` | the tables of one run, each transaction that writes them, and everything others may do in between |
| `DurableExecutor.dfy` | one attempt of a run over those tables, proved against `ModelLoop` for every interleaving |
| `RunResults.dfy` | what may be shown of a run, and why the executor's runs can be shown |
| `JudgeJobs.dfy` | leased evaluation jobs: workers, clock, crashes, scores and charges |
| `IngestionJobs.dfy` | leased ingestion jobs, whose attempt limit is a different one |
| `BudgetGate.dfy` | the workspace budget under concurrent calls |
| `RateLimit.dfy` | the fixed-window limiter |
| `Paging.dfy` | keyset paging of runs and events while rows are added |
| `Embedding.dfy`, `Chunking.dfy` | splitting documents and lining vectors up with texts |
| `Rollouts.dfy` | staged rollouts and the version a workspace is offered |
| `PercentEncoding.dfy`, `Connector.dfy`, `SpendUnits.dfy` | encodings and conversions |
| `Migrations.dfy` | the append-only check of migrations and the runner that applies them |
| `ReleaseScripts.dfy` | the rollout drill and the staging deployment over commands that may fail at any point |

## How concurrency is modelled

A database transaction is one atomic step. In the executor each transaction is a
method of `ExecutorStore.Store`; between any two transactions of an attempt the
attempt calls `Environment`, which runs any number of transactions of anyone else:
other attempts of the same run, stale ones included, approvals, cancellation,
recovery, lease renewal, time. What an attempt may rely on is proved there
(`Rely`), not assumed. Attempt numbers are handed out by `Claim` and only count up;
that two processes never act under one attempt number is taken from the worker
receipts, which are not modelled. In the job workers a run is any sequence of
events of any number of workers, and every property is proved of every state it
passes through. Worker ids are unique and a worker handles one job at a time.

A tool call's row also keeps which attempt produced its result and the text it got
back (`origin`); no column holds that, and nothing the attempts do depends on it.

In both, nondeterminism (what a provider answers, whether a policy allows a call,
whether a command takes effect) is an arbitrary value, so a proof covers every one.

## What turned out not to hold

Most of these name an input on which the code does less than it says, and the
exact condition under which it does what it says.

- A replayed tool result need not be the text the model saw first: the gateway
  returns the adapter's value as it came, and a replay returns it as the `jsonb`
  column spells it, with its own key order and number forms. Attempts that only
  replay agree outright; a live one agrees with a later one exactly when the
  database keeps the spelling of every result it produced
  (`RunResults.AttemptsRebuildTheConversation`, `ReplaysAgree`, `ReplayRespells`).
- A tool call is matched by the hash of its arguments' text, and a number such as 1e22
  comes back from `jsonb` in another form. Once the attempt that got a response has
  opened such a call and ended, by a crash or by waiting for approval, the step is
  stuck: no later attempt gets past it or succeeds, even if the tool had answered.
  Steps whose arguments the database keeps are never stuck
  (`DurableExecutor.Execute`, `RunResults.StuckNeverReturns`, `RespelledCallIsStuck`,
  `KeptArgumentsNeverStick`).
- A model may ask for a tool by a name of more than 200 characters. The response
  is journaled before its calls are held against the advertised tools, so the run
  fails, and a failed or cancelled run can be shown exactly when all names in its
  journal fit (`RunResults.EndedRunIsShowable`, `LongToolNameHidesFailedRun`).
  Registered names are shorter, so a run that succeeded can always be shown
  (`ReturnedRunIsShowableForAdvertised`).
- The attempt limit of ingestion jobs does not bound their attempts: taking over an
  expired lease does not look at it (`IngestionJobs.ClaimExceedsLimit`,
  `AttemptsAreUnbounded`).
- Widening a rollout never lowers a workspace that a rollout already includes, but
  it can lower one that was not included (`Rollouts.WideningCanLower`,
  `WideningLowers`).
- Rolling back a channel's newest rollout promises to reinstate the version that was serving
  the channel. It reinstates the version of the channel's newest rollout that was
  not rolled back, which may be another one (`Rollouts.CreateThenRollBack`,
  `RollbackRestoresServed`, `RollbackLeavesUnserved`, `RollbackCanRestoreAnother`).
- A workspace outside a new rollout's bucket should keep the version that was serving
  its channel. It keeps its offer exactly when that is the version of a rollout of
  another channel that includes it or, with none, the newest version in service that
  is neither the new one nor withheld by another channel. So a version that was rolled
  back, or withheld from it so far, can arrive (`Rollouts.LeftOutKeepsOffer`,
  `RolledBackVersionReturns`, `WithheldVersionArrives`).
- A version taken out of service is still served, to exactly the workspaces for which
  a rollout of it leads (`Rollouts.OutOfServiceOffer`, `OutOfServiceIsServed`,
  `DisabledVersionIsServed`).
- "At most one active rollout per agent and channel" is not kept by the repository
  code when a paused rollout is resumed or a completed one rolled back; the unique
  index of migration 016 refuses the second one, which the model includes as an
  error answer.
- Two identities share a rate-limit counter if an issuer or a subject contains a NUL
  character (`RateLimit.KeyIsSharedOnlyWithNul`).
- With a status filter, paging can miss a run whose status changes on the way: a run
  is shown exactly when it matches in its turn, in the table of the one page whose
  cursors enclose it (`Paging.ShownExactlyInTurn`, `StatusFilterCanMiss`).
- `_finish_if_complete` of the judge worker never completes a job: the last score
  has always done so before (`JudgeJobs.FinishingIsStale`). The same holds for
  `_succeed` of the ingestion worker (`IngestionJobs.ReportSuccessNeverWrites`).
- The migration check does not ask that new migrations come last. A database upgraded
  step by step and a fresh one then apply the same migrations in different orders
  (`Migrations.OrderKeptIffAppended`, `LowerNumberBreaksOrder`).
- A staging deployment that fails is taken back exactly when every workload had an
  image before. With one of them missing, the others can be left changed
  (`ReleaseScripts.Deploy`, `FirstDeploymentIsNotTakenBack`).

## Model

| member | source | states |
|---|---|---|
| ModelLoop.ReachShape | apps/api/src/nexora_api/executor.py:191-348 | at the top of iteration n the loop stands at step n, its messages are the opening plus every earlier call and result in order, and its token count is the sum of the first n responses |
| ModelLoop.NextShape | apps/api/src/nexora_api/executor.py:195-348 | an iteration that goes on had step and context to spare, a response that asked for tools below the token limit, and only allowed tools that all answered |
| ModelLoop.ReachUsedTools | apps/api/src/nexora_api/executor.py:329-340 | every response before the current iteration asked for tools, all of them allowed and answered |
| ModelLoop.ReachMonotone | apps/api/src/nexora_api/executor.py:198-199 | a position reached over a journal is reached unchanged over every longer journal and larger set of results |
| ModelLoop.ReachThenRun | apps/api/src/nexora_api/executor.py:192-349 | replaying the journal up to any reached iteration and going on gives the outcome of the whole loop |
| ModelLoop.TranscriptsAgree | apps/api/src/nexora_api/executor.py:341-348 | two replays of one journal build conversations equal message by message up to the spelling of tool results, and equal outright exactly when no result is spelled differently |
| AnswerCache.ServedExactlyWhileFresh | apps/api/src/nexora_api/executor_store.py:332-350 | a saved answer is served, without usage, until the next save under its key or until its time to live has passed, and from then on it is not |
| AnswerCache.SavesDoNotInterfere | apps/api/src/nexora_api/executor.py:62-96 | a save under another key changes no answer |
| AnswerCache.Cache.Lookup | apps/api/src/nexora_api/executor_store.py:337-353 | a lookup returns exactly what the history of saves prescribes for its key and time, validated and free of charge |
| AnswerCache.Cache.LookupSimilar | apps/api/src/nexora_api/executor_store.py:392-440 | the chosen row is live, shares every component of the scope and the embedding model, is similar enough, and no other such row is closer; none is chosen only when none is similar enough |
| AnswerCache.Cache.Fetch | apps/api/src/nexora_api/executor_store.py:428-445 | the answer behind a similarity hit is the remembered one of its key, without usage |
| AnswerCache.Cache.Save | apps/api/src/nexora_api/executor_store.py:540-590 | a save appends one entry to the history, adds at most its own key, and keeps the hit count of a row it replaces |
| AnswerCache.Cache.Touch | apps/api/src/nexora_api/executor_store.py:367-372 | a hit raises one counter and changes no answer |
| ExecutorStore.AppendKeepsWellFormed | apps/api/src/nexora_api/executor_store.py:474-540 | adding a validated response as the next row, charged exactly when a provider answered it, keeps every invariant of the tables |
| ExecutorStore.AppendKeepsJournal | apps/api/src/nexora_api/executor.py:321-332 | a journal whose responses all asked for tools stays a journal when one validated response is appended |
| ExecutorStore.FinalAnswerIsFinal | apps/api/src/nexora_api/executor.py:325-332 | no row can follow a response that ended the run |
| ExecutorStore.JournalIsPrefix | apps/api/src/nexora_api/migrations/006_executor_journal.sql:1-15 | along every evolution of the tables an earlier journal is a prefix of the later one |
| ExecutorStore.StoredIsCanonical | apps/api/src/nexora_api/tool_repository.py:875-905 | a stored tool result is spelled the way the database spells it |
| ExecutorStore.Store.Fence | apps/api/src/nexora_api/execution_fence.py:8-51 | a write goes through only on a running run with a live lease, no cancellation and this attempt number |
| ExecutorStore.Store.Load | apps/api/src/nexora_api/executor_store.py:321-330 | gives the journaled response of a step, or says that there is none, only to the executable attempt |
| ExecutorStore.Store.Save | apps/api/src/nexora_api/executor_store.py:474-540 | the step and its ledger row commit together at the end of the journal under the executable attempt, or nothing changes |
| ExecutorStore.Store.Restore | apps/api/src/nexora_api/executor_store.py:354-366 | a cached answer becomes step 0 of an empty journal and the step is charged nothing, or nothing changes |
| ExecutorStore.Store.ChargeSearch | apps/api/src/nexora_api/executor_store.py:99-133 | the embedding of the question is charged under the executable attempt, once for the run |
| ExecutorStore.Store.LoadRetrieval | apps/api/src/nexora_api/executor_store.py:134-199 | returns the stored evidence or says that there is none |
| ExecutorStore.Store.SaveRetrieval | apps/api/src/nexora_api/executor_store.py:201-319 | the first evidence stored is kept; a later attempt must present the same text |
| ExecutorStore.Store.PrepareCall | apps/api/src/nexora_api/tool_repository.py:565-780 | a call whose row has its arguments written otherwise is a conflict and changes nothing; else a finished call replays its stored result, an open approval waits, a closed call is refused, and only an open call that nobody still has to decide on is executed; no finished call changes |
| ExecutorStore.Store.ReconsiderCall | apps/api/src/nexora_api/tool_repository.py:627-707 | a call with a row is replayed exactly as stored, waits while its approval is open, is refused without touching a result, or is executed while still open |
| ExecutorStore.Store.MarkRunning | apps/api/src/nexora_api/tool_repository.py:782-873 | only an open call of the executable attempt is marked running, and no finished call changes |
| ExecutorStore.Store.CompleteCall | apps/api/src/nexora_api/tool_repository.py:875-905 | a result is stored once, for a call that is still running under the executable attempt, and no other call changes |
| ExecutorStore.Store.FailCall | apps/api/src/nexora_api/tool_repository.py:907-953 | a failure changes only a running call of the executable attempt and never a finished one |
| ExecutorStore.Store.Claim | apps/api/src/nexora_api/run_state.py:104-263 | a claim takes a queued run, or a running one whose lease ran out, under the next attempt number |
| ExecutorStore.Store.UpdateRunRow | apps/api/src/nexora_api/run_state.py:297-592 | renewal, recovery, pause, completion and failure never change the attempt number and never leave a final status |
| ExecutorStore.Store.Environment | apps/api/src/nexora_api/run_state.py:104-592 | while an attempt has not been superseded, nobody else writes its journal, evidence, ledger or results, in any number of transactions |
| DurableExecutor.Execute | apps/api/src/nexora_api/executor.py:139-349 | in every interleaving with crashes, retries, approvals, cancellation and stale attempts: tables stay well formed and lose nothing; a normal return or a refusal is the outcome of the uninterrupted loop on the journal; an attempt that stops or pauses saw nothing beyond the iteration it had reached; a pause names a pending approval of the first unanswered call there; no step is passed that was stuck on a conflicting call when the attempt began; every provider request is the one that loop makes and asks for at least one token |
| DurableExecutor.Converse | apps/api/src/nexora_api/executor.py:191-349 | the loop of one attempt reaches only positions of the uninterrupted loop and ends as it does |
| DurableExecutor.OneStep | apps/api/src/nexora_api/executor.py:192-348 | one iteration leads from one position of the uninterrupted loop to the next or ends with its outcome |
| DurableExecutor.NextResponse | apps/api/src/nexora_api/executor.py:193-320 | the response used at a step is the journaled one, or becomes it before it is used |
| DurableExecutor.ConsultCache | apps/api/src/nexora_api/executor.py:213-256 | a cache hit is journaled as step 0 with no step charge before it is used, and only by the attempt that stands at the start of the journal |
| DurableExecutor.PaySearch | apps/api/src/nexora_api/executor.py:226-240 | where embeddings are priced the cache is searched only after the embedding has been charged |
| DurableExecutor.AskProvider | apps/api/src/nexora_api/executor.py:257-284 | a provider is asked for between 1 and the remaining number of tokens, with exactly the conversation of the uninterrupted loop, and an invalid answer is never journaled |
| DurableExecutor.Journalize | apps/api/src/nexora_api/executor.py:285-320 | a validated answer is appended at the end of the journal, and saved in the cache exactly when a cache key was used and the answer is cacheable |
| DurableExecutor.RunTools | apps/api/src/nexora_api/executor.py:333-348 | each call is allowed, run or replayed in order, and appends its call and result; a disallowed tool stops the loop where the uninterrupted loop stops; a pause or conflict is at the first call of the step without an answer |
| DurableExecutor.InvokeTool | apps/api/src/nexora_api/mcp_gateway.py:92-204 | a result another attempt got stored is returned exactly as stored, and one this attempt produced as the tool gave it; the attempt remembers every result it produced; a pause leaves a pending approval; a result is only given when the row there was, if any, has the arguments as this attempt writes them, and a conflict only occurs when the database gives them back otherwise |
| DurableExecutor.ClaimAndExecute | apps/api/src/nexora_api/worker.py:153-188 | a claimed attempt starts with a number under which no result was ever stored, and everything said of an attempt holds of it |
| DurableExecutor.Retrieve | apps/api/src/nexora_api/executor.py:351-383 | evidence is stored before it is used and fits the context limit together with the prompt |
| DurableExecutor.Admit | apps/api/src/nexora_api/executor.py:139-190 | an attempt goes on only with an authorized profile, at most 100 tools of which 32 are advertised, and settled evidence |
| RunResults.Summarize | apps/api/src/nexora_api/run_results.py:23-69 | a summary exists exactly for a finished run with at most 32 contiguous well-shaped steps and, on success, a final answer; it adds up all tokens and names exactly the tools called |
| RunResults.ReturnedRunIsShowable | apps/api/src/nexora_api/run_results.py:23-54 | after a normal return the journal fits steps and token budget, ends in the returned answer, and can be shown if and only if every tool it called has a name of at most 200 characters |
| RunResults.ReturnedRunIsShowableForAdvertised | apps/api/src/nexora_api/run_results.py:12-13 | when advertised tool names have legal length every normal return can be shown |
| RunResults.EndedRunIsShowable | apps/api/src/nexora_api/run_results.py:23-54 | a failed or cancelled run can be shown if and only if every tool its journal asks for has a name of at most 200 characters |
| RunResults.LongToolNameHidesFailedRun | apps/api/src/nexora_api/executor.py:285-335 | whatever tools of legal length are advertised, a model that asks for a name of 201 characters makes a run that fails as model_tool_not_allowed and cannot be shown |
| RunResults.AnswerAtOnce | apps/api/src/nexora_api/executor.py:325-328 | a run that answers at once meets the premises of the results above |
| RunResults.AnsweredJournalIsFrozen | apps/api/src/nexora_api/executor.py:325-328 | once a response ended the conversation no schedule adds a step |
| RunResults.CachedRunIsOneFreeStep | apps/api/src/nexora_api/executor_store.py:91-133 | a run answered from the cache is one step, costs no tokens, has no step charge and ends in that answer; if it answered a similar question the search for it was charged exactly where that is priced |
| RunResults.AttemptsRebuildTheConversation | apps/api/src/nexora_api/executor.py:198-348 | two attempts that reach step n, at whatever times, hold the same tokens and the same conversation up to the spelling of tool results, and the very same if and only if they are one attempt or the database keeps the spelling of every result of those steps that either produced |
| RunResults.ReplaysAgree | apps/api/src/nexora_api/executor.py:198-348 | two attempts that produced none of the results of those steps hold the very same conversation |
| RunResults.ReplayRespells | apps/api/src/nexora_api/mcp_gateway.py:105-107 | for every result the database stores in another spelling there is a run whose first attempt, which ran the tool, and second, which replays it, go on with different conversations |
| RunResults.StuckNeverReturns | apps/api/src/nexora_api/tool_repository.py:624-629 | a run with a stuck step, one with a call row whose arguments are not as the journal gives them back, is never answered by an attempt that begins then |
| RunResults.RespelledCallIsStuck | apps/api/src/nexora_api/tool_contracts.py:48-66 | every call whose arguments the database gives back otherwise leaves its run stuck once the attempt that opened it has ended |
| RunResults.KeptArgumentsNeverStick | apps/api/src/nexora_api/tool_repository.py:624-629 | a step whose arguments the database keeps is never stuck |
| JudgeJobs.RunKeepsInv | apps/api/src/nexora_api/evaluation_judge_worker.py:156-649 | every reachable state keeps: cases scored in order under the pinned judge and charged with their score, claims equal scores plus attempts plus the running one, and a holder whose picked case is still the next |
| JudgeJobs.ClaimsBounded | apps/api/src/nexora_api/evaluation_judge_worker.py:161-242 | a job is claimed at most case count plus 2 times; it is succeeded exactly when all its cases are scored; queued and running mean fewer than 3 attempts and an unscored case |
| JudgeJobs.ScoresAreCharged | apps/api/src/nexora_api/evaluation_judge_worker.py:524-562 | a score and its ledger row exist together, once per case, under the provider and model the job is pinned to |
| JudgeJobs.BoundIsMet | apps/api/src/nexora_api/evaluation_judge_worker.py:161-242 | for every number of cases some run claims a job exactly that number plus 2 times and completes it |
| JudgeJobs.JobHistory | apps/api/src/nexora_api/evaluation_judge_worker.py:156-649 | over any run a pinned judge never changes, scores and charges only grow, and a finished row never changes |
| JudgeJobs.LeavesRunning | apps/api/src/nexora_api/evaluation_judge_worker.py:466-501 | a lease changes only by renewal or write of its unexpired holder or after it ran out, and the claim it ends was spent on one new score or one more attempt |
| JudgeJobs.StaleWorkerChangesNothing | apps/api/src/nexora_api/evaluation_judge_worker.py:484-501 | a worker that does not hold the lease changes no row with anything it still writes |
| JudgeJobs.FinishingIsStale | apps/api/src/nexora_api/evaluation_judge_worker.py:595-617 | a worker that found no case left never holds the lease, so its completion branch and its count check never act |
| JudgeJobs.SaveCaseOk | apps/api/src/nexora_api/evaluation_judge_worker.py:503-593 | saving under the lease scores a case that had no score, keeps the row invariant, and ends in success exactly with the last case |
| JudgeJobs.SomethingLeft | apps/api/src/nexora_api/evaluation_judge_worker.py:278-304 | a running job always has an unscored case |
| JudgeJobs.JobTable.ClaimNext | apps/api/src/nexora_api/evaluation_judge_worker.py:156-246 | expired leases of matching jobs cost an attempt, and the first eligible unlocked job by availability, age and id is taken |
| JudgeJobs.JobTable.Heartbeat | apps/api/src/nexora_api/evaluation_judge_worker.py:466-482 | a lease is extended exactly while it is held and unexpired |
| JudgeJobs.JobTable.SaveCaseScore | apps/api/src/nexora_api/evaluation_judge_worker.py:503-593 | score, charge and new status are written together, exactly by the unexpired holder |
| JudgeJobs.JobTable.FinishJob | apps/api/src/nexora_api/evaluation_judge_worker.py:595-617 | on rows that keep their invariant it changes nothing; counts that disagree are reported without writing |
| JudgeJobs.JobTable.FailJob | apps/api/src/nexora_api/evaluation_judge_worker.py:619-649 | a failure by the holder costs an attempt and requeues only a retryable one below the limit |
| IngestionJobs.RunKeepsInv | apps/api/src/nexora_api/knowledge_worker.py:104-220 | every reachable row satisfies the invariant of the clients and the exact account of its attempts |
| IngestionJobs.ReachableRow | apps/web/lib/knowledge-contracts.ts:28-40 | succeeded exactly when a source is set, a code on every failure, fewer than 3 attempts while queued, and more than 3 exactly after a takeover at the limit |
| IngestionJobs.TerminalStays | apps/api/src/nexora_api/migrations/007_knowledge_ingestion.sql:41-58 | a succeeded, failed or cancelled row never changes |
| IngestionJobs.LeavesRunning | apps/api/src/nexora_api/knowledge_worker.py:139-177 | a running row changes only by its unexpired holder, or once its lease has run out |
| IngestionJobs.StaleWorkerChangesNothing | apps/api/src/nexora_api/knowledge_worker.py:157-177 | a worker without the lease changes no row |
| IngestionJobs.LostLeaseStaysLost | apps/api/src/nexora_api/knowledge_worker.py:139-155 | a lease once lost is not held again before a new claim |
| IngestionJobs.ReportSuccessNeverWrites | apps/api/src/nexora_api/knowledge_worker.py:177-196 | the index transaction has completed the job, so the success update after it never writes |
| IngestionJobs.ClaimExceedsLimit | apps/api/src/nexora_api/knowledge_worker.py:104-137 | a claim goes beyond 3 attempts if and only if it takes over a running row that has used 3 |
| IngestionJobs.AttemptsAreUnbounded | apps/api/src/nexora_api/knowledge_worker.py:104-137 | for every n some run reaches n attempts |
| IngestionJobs.JobTable.TakeJob | apps/api/src/nexora_api/knowledge_worker.py:104-137 | a due or expired row is taken with one attempt more, whatever its attempts |
| IngestionJobs.JobTable.FailJob | apps/api/src/nexora_api/knowledge_worker.py:198-220 | the holder requeues a retryable failure below the limit and fails any other |
| IngestionJobs.JobTable.SucceedJob | apps/api/src/nexora_api/knowledge_worker.py:177-196 | only the holder sets the source and the final status |
| IngestionJobs.JobTable.CancelSource | apps/api/src/nexora_api/rag_repository.py:550-580 | all open jobs of a source are cancelled together, unless one of them is held under a live lease |
| Chunking.ChunkText | apps/api/src/nexora_api/rag.py:65-119 | refuses exactly illegal settings and empty documents; otherwise the chunks are faithful slices, stripped, at most the limit long, numbered from zero, and cover every character that is not white space; the last error cannot happen |
| Chunking.ChunksAreGood | apps/api/src/nexora_api/rag.py:80-119 | the same for the windows of any normalized document, with the bound on their number when the overlap is less than half a window |
| Chunking.Cut | apps/api/src/nexora_api/rag.py:77-115 | the loop produces the chunks of exactly the prescribed windows |
| Chunking.WindowsAdvance | apps/api/src/nexora_api/rag.py:80-115 | for every legal setting window starts strictly increase, ends never decrease and no gap is left; with less than half a window of overlap ends strictly increase too |
| Chunking.EndsMoveOn | apps/api/src/nexora_api/rag.py:109-115 | an end is repeated at most once |
| Chunking.FewWindows | apps/api/src/nexora_api/rag.py:80-115 | with less than half a window of overlap, window i starts at least i times the difference into the document |
| Chunking.WindowsShape | apps/api/src/nexora_api/rag.py:80-115 | there is a first window at the start, a last one ending the document, and none is longer than the limit |
| Chunking.ChunksAreFaithful | apps/api/src/nexora_api/rag.py:93-107 | every chunk equals the document between its offsets, is stripped and within the limit, and carries its own index |
| Chunking.NormalizeIsIdempotent | apps/api/src/nexora_api/rag.py:54-58 | a normalized document has no carriage return and no outer white space, and normalizes to itself |
| Chunking.EmbeddedChunksAreStoredChunks | apps/api/src/nexora_api/rag_repository.py:339-347 | the chunks embedded from the raw text are those stored from the normalized one |
| RateLimit.TwiceTheLimit | apps/api/src/nexora_api/rate_limit.py:9-20 | from any state of the key at most twice the limit is allowed in any interval one window long |
| RateLimit.TwiceTheLimitIsReached | apps/api/src/nexora_api/rate_limit.py:9-20 | for every limit some schedule reaches exactly that |
| RateLimit.LimitPerLifetime | apps/api/src/nexora_api/rate_limit.py:49-63 | within one lifetime of the key exactly the first limit requests are allowed |
| RateLimit.HitHeals | apps/api/src/nexora_api/rate_limit.py:14-18 | after every request the key is live and expires within one window, even if it had no expiry |
| RateLimit.KeyIsSharedOnlyWithNul | apps/api/src/nexora_api/rate_limit.py:44-47 | two different identities share a counter if and only if a NUL character occurs in the issuer or the subject |
| RateLimit.IdentityRateLimiter.Count | apps/api/src/nexora_api/rate_limit.py:9-20 | one run of the script counts once and sets or repairs the expiry |
| RateLimit.IdentityRateLimiter.Check | apps/api/src/nexora_api/rate_limit.py:49-63 | a request is allowed exactly up to the limit, a disabled limiter allows without counting, an unreachable store never allows |
| Paging.EveryInitialRunIsShown | apps/api/src/nexora_api/agent_repository.py:265-318 | without a status filter every run that matched when the first page was read is shown, whatever is inserted between pages |
| Paging.ShownExactlyInTurn | apps/api/src/nexora_api/agent_repository.py:265-318 | whatever is inserted or changes status between pages, a run is shown if and only if it matches the filter in its turn, in the table of the page whose cursors enclose it; a run of the first table has a turn and no run has two |
| Paging.ShownExactlyOnce | apps/api/src/nexora_api/agent_repository.py:265-318 | with any filter a run that matches throughout is shown at one place and no other |
| Paging.NoRunTwice | apps/api/src/nexora_api/agent_repository.py:265-318 | no run is shown twice |
| Paging.StatusFilterCanMiss | apps/api/src/nexora_api/agent_repository.py:291-299 | such a run exists: it takes on the status asked for only after its turn and is never shown |
| Paging.ListRuns | apps/api/src/nexora_api/agents.py:183-194 | a page holds the first rows after the cursor and names a next cursor exactly when rows are left |
| Paging.SelectTop | apps/api/src/nexora_api/agent_repository.py:291-299 | the rows are the newest candidates in order, as many as there are up to the limit |
| Paging.RunEvents.Append | apps/api/src/nexora_api/runtime_events.py:6-20 | events are numbered 1, 2, ... without gap or repetition |
| Paging.RunEvents.ListEvents | apps/api/src/nexora_api/agent_repository.py:448-455 | a page holds the numbers right after the cursor and names a next cursor exactly when more exist |
| Paging.EventPagesAreContiguous | apps/api/src/nexora_api/agent_repository.py:448-455 | following the cursors the listing gives, all pages together are 1 to n, with n the last event when the last page was read |
| Embedding.ParseReply | apps/api/src/nexora_api/embeddings.py:185-227 | a reply is used if and only if it has its fields, the right model, indices that are a permutation of the batch, usable vectors and a token count; vector i is then the one labelled i; otherwise the first defect, from the header through the items to the count, names the error |
| Embedding.NormalizeVector | apps/api/src/nexora_api/embeddings.py:229-241 | a vector is accepted exactly with the right length, components that convert and are finite, and one that is not zero, unchanged; a whole number too large to convert is no provider error |
| Embedding.CompleteIffCounted | apps/api/src/nexora_api/embeddings.py:215-216 | without a defect, having every index is the same as having as many items as texts |
| Embedding.EmbedTexts | apps/api/src/nexora_api/rag_pipeline.py:206-230 | whatever the batch size and the order of replies, vector i embeds text i, as one unbatched call would give, and the tokens are those of all batches; all texts are refused exactly when some batch is |
| Embedding.AlignedIsEmbedded | apps/api/src/nexora_api/embeddings.py:222-227 | a permuted reply put in order is the embeddings of its texts in order |
| ReleaseScripts.RunDrill | scripts/staging_rollout_rollback.py:289-326 | whatever commands fail, before or after taking effect, the cluster ends on its old images unless the result names the deployments whose restore failed; it passes only after every stage succeeded in order; a refused drill changes nothing |
| ReleaseScripts.Exercise | scripts/staging_rollout_rollback.py:308-314 | apply, wait, smoke, undo, wait, compare, smoke, in that order and stopping at the first failure; success means the old images |
| ReleaseScripts.RestoreExact | scripts/staging_rollout_rollback.py:246-271 | every deployment is set back and awaited whatever fails; the errors are exactly the failures, and all others run their old image |
| ReleaseScripts.CheckImages | scripts/staging_rollout_rollback.py:274-286 | success means every deployment runs the expected image |
| ReleaseScripts.Changed | scripts/staging_rollout_rollback.py:116-125 | exactly the deployments whose image differs from the candidate, each once |
| ReleaseScripts.Deploy | scripts/deploy_staging.py:265-314 | no workload command is sent before the migration was seen to complete; success means every command succeeded in order and exactly the requested images; a failure restores the old images or names what it could not restore if every deployment had an image, and stays as it is, somewhere in the rollout, if one had none |
| ReleaseScripts.FirstDeploymentIsNotTakenBack | scripts/deploy_staging.py:299-303 | on every cluster with some deployment missing, each one that runs another image can be left changed: there is a run of permitted commands that passes the gate, fails in the rollout and ends with its image replaced |
| ReleaseScripts.Gate | scripts/deploy_staging.py:276-294 | nothing but questions and the migration job is sent before overlays, permissions and migration are settled |
| ReleaseScripts.RollOutOrRestore | scripts/deploy_staging.py:296-314 | a failed rollout is taken back exactly when every deployment had an image before |
| PercentEncoding.UnquoteInvertsQuote | apps/api/src/nexora_api/rag.py:49-51 | decoding gives back the encoded bytes |
| PercentEncoding.QuoteInjective | apps/api/src/nexora_api/rag.py:49-51 | different texts have different encodings |
| PercentEncoding.QuotedChars | apps/api/src/nexora_api/connector_runtime.py:123-123 | an encoding holds only unreserved characters and percent signs |
| PercentEncoding.CitationIdInjective | apps/api/src/nexora_api/rag.py:49-51 | no two pairs of key and version share a citation id |
| Connector.FillPath | apps/api/src/nexora_api/connector_runtime.py:112-123 | fills the path exactly when every occurrence is configured or an unused argument of a text or number; the first that is not decides the error; for templates whose braces wrap names the result is simultaneous substitution; each argument used is removed |
| Connector.RequestParts | apps/api/src/nexora_api/connector_runtime.py:110-130 | path, query or body, and key are split so that every argument ends in exactly one of them; the first occurrence that cannot be filled decides the error, and a path that repeats a name which is not configured is always refused |
| Connector.FindsTheNames | apps/api/src/nexora_api/connector_runtime.py:114-114 | the scan finds exactly the placeholders of the template in order |
| Connector.ReplaceIsFill | apps/api/src/nexora_api/connector_runtime.py:123-123 | replacing one name fills its placeholders and nothing else |
| Connector.RequestKeepsSegments | apps/api/src/nexora_api/connector_runtime.py:113-123 | no value adds a slash to the path; filling takes away the slashes of the names it replaces and no other, so the path keeps all of the template if and only if no filled name has one |
| Connector.RepeatedArgumentFails | apps/api/src/nexora_api/connector_runtime.py:112-122 | a path in which a name that is not configured stands twice is never built: the argument is missing at its second occurrence, unless an occurrence before any repetition was invalid |
| SpendUnits.RoundTrip | apps/web/lib/spend-contracts.ts:106-121 | every amount from 0 to 10^15 micros survives being shown and typed back |
| SpendUnits.CanonicalForm | apps/web/lib/spend-contracts.ts:106-121 | every accepted text has a canonical form of the same value that is its own canonical form, shared by exactly the texts of that value |
| SpendUnits.PadRestores | apps/web/lib/spend-contracts.ts:118-121 | padding brings back exactly the zeros the display dropped |
| BudgetGate.BudgetHolds | apps/api/src/nexora_api/executor_store.py:57-77 | with at most k calls of at most M in flight an enforced limit is overshot to at most limit - 1 + k*M, and not at all at limit 0, in every interleaving of authorize, store and crash |
| BudgetGate.CeilingIsReached | apps/api/src/nexora_api/spend.py:128-146 | for every limit, k and M some run reaches that ceiling exactly |
| BudgetGate.ExhaustedStaysExhausted | apps/api/src/nexora_api/spend.py:128-146 | spending only grows, and an exhausted budget starts no further call |
| BudgetGate.ChargedOnce | apps/api/src/nexora_api/spend_repository.py:158-196 | no work is charged twice |
| BudgetGate.SpendLedger.Authorize | apps/api/src/nexora_api/spend_repository.py:142-157 | the decision is over the exact sum of the committed charges |
| BudgetGate.SpendLedger.Record | apps/api/src/nexora_api/spend_repository.py:158-196 | a charge is appended exactly when its work has none |
| Migrations.NoViolations | scripts/check_migrations.py:50-72 | accepts exactly the changes that keep every released file as it is and give every number to one well-named file |
| Migrations.AppendOnlyTransitive | scripts/check_migrations.py:50-72 | checks along a chain of releases add up to the check against any earlier release |
| Migrations.Migrate | apps/api/src/nexora_api/migrate.py:12-32 | refused, as a whole, exactly when an applied migration changed; otherwise the missing migrations are applied once each in listing order |
| Migrations.CheckedReleaseIsAccepted | apps/api/src/nexora_api/migrate.py:25-28 | a database at a release is never refused a release that passed the check against it |
| Migrations.HistoryIsNeverRefused | apps/api/src/nexora_api/migrate.py:12-32 | over any chain of checked releases no migration run is refused, and after each the database has applied exactly the migrations of its release |
| Migrations.MigratedIsAt | apps/api/src/nexora_api/migrate.py:19-32 | after a checked release is applied the database has exactly its migrations |
| Migrations.MigrateIsIdempotent | apps/api/src/nexora_api/migrate.py:25-28 | migrating again changes nothing |
| Migrations.OrderKeptIffAppended | apps/api/src/nexora_api/migrate.py:19-28 | an upgraded database has applied its migrations in listing order, as a fresh one does, if and only if every new name sorts after every name it had |
| Migrations.LowerNumberBreaksOrder | scripts/check_migrations.py:50-72 | every new file with a lower number than a released one passes the check and is applied after it |
| Rollouts.Offered | apps/api/src/nexora_api/agent_catalog_repository.py:537-571 | offers the greatest version among the active rollouts that include the workspace, otherwise the greatest offerable version in scope that no rollout withholds |
| Rollouts.OfferIsUnique | apps/api/src/nexora_api/agent_catalog_repository.py:537-571 | a workspace has one offer |
| Rollouts.WideningKeepsIncluded | apps/api/src/nexora_api/agent_catalog_repository.py:385-412 | widening drops no workspace and never lowers what an included one is offered |
| Rollouts.WideningCanLower | apps/api/src/nexora_api/agent_catalog_repository.py:545-561 | a workspace not included before is lowered if and only if the widening reaches it with an older version |
| Rollouts.WideningLowers | apps/api/src/nexora_api/agent_catalog_repository.py:545-561 | such a widening exists |
| Rollouts.OfferGrowsWithChannel | apps/api/src/nexora_api/agent_catalog_repository.py:563-571 | with no active rollout in scope the offer is the greatest offerable version and grows with the channel |
| Rollouts.OutOfServiceOffer | apps/api/src/nexora_api/agent_catalog_repository.py:554-571 | a workspace is offered a version that is not in service if and only if the greatest rollout that includes it is of one |
| Rollouts.OutOfServiceIsServed | apps/api/src/nexora_api/agent_catalog_repository.py:545-561 | some workspace of a channel is offered such a version if and only if a rollout in play is of one, reaches someone, and no rollout that reaches at least as far is of a greater version |
| Rollouts.DisabledVersionIsServed | apps/api/src/nexora_api/agent_catalog_repository.py:554-561 | a version disabled after its rollout began is such a version |
| Rollouts.RolloutTable.CreateRollout | apps/api/src/nexora_api/agent_catalog_repository.py:319-357 | an offerable version takes over its channel and the active rollout there is completed, so at most one is active |
| Rollouts.RolloutTable.UpdateRollout | apps/api/src/nexora_api/agent_catalog_repository.py:385-412 | a change is refused exactly when it is malformed, for a finished rollout, or when it would make a second one active |
| Rollouts.RolloutTable.RollBack | apps/api/src/nexora_api/agent_catalog_repository.py:414-472 | the latest earlier rollout that was not rolled back is restored for everyone; refused exactly when the channel is served by another rollout |
| Rollouts.RollbackServesEveryone | apps/api/src/nexora_api/agent_catalog_repository.py:414-472 | after it every workspace of the channel is offered at least the restored version |
| Rollouts.CreateThenRollBack | apps/api/src/nexora_api/agent_catalog_repository.py:414-472 | on any catalog, creating a rollout, changing it at will and rolling it back leaves the channel on the version of its newest earlier rollout that was not rolled back, on none if there is none, and every other channel as it was |
| Rollouts.UpdatesKeepStaged | apps/api/src/nexora_api/agent_catalog_repository.py:385-412 | no sequence of changes to a rollout alters what its rollback depends on |
| Rollouts.RollbackRestoresServed | apps/api/src/nexora_api/agent_catalog_repository.py:417-431 | the version that was serving the channel is reinstated if and only if that newest rollout is of it |
| Rollouts.RollbackLeavesUnserved | apps/api/src/nexora_api/agent_catalog_repository.py:442-444 | a channel that served no rollout serves none again if and only if every earlier rollout of it was rolled back |
| Rollouts.RollbackCanRestoreAnother | apps/api/src/nexora_api/agent_catalog_repository.py:385-472 | create, pause and resume lead to a channel on version 1 whose next rollback reinstates version 2 |
| Rollouts.LeftOutKeepsOffer | apps/api/src/nexora_api/agent_catalog_repository.py:537-571 | a workspace of any channel that a new rollout leaves out keeps its offer if and only if it survives: it is the version of a rollout of another channel that includes the workspace, or, with none, the newest version in service that is neither the new one nor withheld by another channel, or there is no such version and it had no offer |
| Rollouts.LeftOut | apps/api/src/nexora_api/agent_catalog_repository.py:545-571 | after a new rollout that leaves it out a workspace is included by exactly the rollouts of other channels that included it, and can fall back to exactly the versions that remain |
| Rollouts.RolledBackVersionReturns | apps/api/src/nexora_api/agent_catalog_repository.py:537-571 | after a rollback, rolling out a third version to some puts all others on the version rolled back |
| Rollouts.WithheldVersionArrives | apps/api/src/nexora_api/agent_catalog_repository.py:537-571 | without any rollback, rolling out a third version to some puts the others on the version withheld from them so far |

## Left out

- DurableExecutor.Execute: an attempt may always end as stopped, because a fence, a cancellation, a provider, a gateway, a price or a budget may stop it; that a run makes progress is not stated.
- ExecutorStore.Store.Fence: the worker receipt, the trace, the agent's identity and the membership check are one arbitrary refusal.
- ExecutorStore.Store.PrepareCall: the policy in force and whether the tool's contract changed are arbitrary; argument validation, tools that are no longer registered and contract hashes are not modelled.
- ExecutorStore.Store.UpdateRunRow: queue messages, worker receipts and failure codes of the run state machine are not modelled, only the run row.
- ModelLoop.TranscriptsAgree: a tool call's own arguments are compared as JSON values, as the messages hold them, so only the text of tool results can differ between replays.
- AnswerCache.Cache.Lookup: hashed keys and scopes are kept as the records that are hashed, so equal keys mean equal questions and scopes; the normalization of a question is the caller's.
- AnswerCache.Cache.LookupSimilar: similarity is an arbitrary function of two vectors, and which of two equally similar rows is taken (the source orders them by key) is left open.
- DurableExecutor.NextResponse: a replayed response is validated once, when it is journaled; the source validates it again on arguments as the database spells them, which could be longer.
- Chunking.ChunkText: content hashes are left out.
- BudgetGate.BudgetHolds: one period with a fixed limit; the month boundary, changed limits and alert thresholds are left out.
- RateLimit.IdentityRateLimiter.Check: the digest of the key is left out, being one-to-one, and the store's rounding of the remaining seconds is a plain division.
- JudgeJobs.JobTable.SaveCaseScore: a score is one number; authorization, source outputs, latency and token counts are left out.
- IngestionJobs.JobTable.TakeJob: the order in which rows are taken is left out, since locked rows are skipped and any due row may be the one taken.
- Embedding.EmbedTexts: limits on the number and length of texts per call and the charge are left out; what converting a component to a float gives is an input, and floating point is real arithmetic with a value that is not finite.
- Connector.RequestParts: the base URL, credentials, address checks and the call itself are left out.
- PercentEncoding.CitationIdInjective: lone surrogates, which the encoder refuses, are not characters here.
- Rollouts.Offered: the bucket of a workspace is any number below 100; the hash behind it is left out.
- ReleaseScripts.RunDrill: an image is what the deployment's specification names; pods, replica sets and their readiness are left out.
- Paging.ListRuns: workspace scoping and the columns shown are left out.
- Migrations.NoViolations: a digit of a file name is an ASCII digit; the source's pattern takes any Unicode decimal digit.
- Migrations.Migrate: a migration whose statements fail, which rolls the run back, and the grants after it are left out; checksums stand for the texts they are taken of.
- Worker receipts, the outbox and its dead letter, idempotent creation and cancellation of runs, the agent manifest, digest pinning in overlays, retrieval scores and the averages of judge results are not part of this model.
- HTTP, database and Redis drivers, telemetry, asyncio task mechanics, the vault, sign-in and token checks, schema field bounds and the user interface are not part of this model.
