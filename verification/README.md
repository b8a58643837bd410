# Contract reviewer: a verified model

A Dafny model of an agent that reviews contracts: a PDF is split into clauses, one
tool-using model run analyses each clause, a person may approve or reject the findings,
and a report is written. The program promises that work survives crashes, that one
budget bounds all agents, that the context window is never the reason for a failure, and
that review cannot be skipped. Here those promises are stated over every run and every
interleaving and proved, or shown to fail with the exact condition under which they hold.

`dafny verify dfyconfig.toml` checks everything. Nothing was executed.

## How it is put together

- `llm.dfy`, `domain.dfy`, `tokens.dfy`, `text.dfy`, `newest.dfy`, `wrappers.dfy`: messages,
  entities, the counting of tokens over an arbitrary tokenizer, white space, last-wins maps.
- `pairing.dfy`, `compaction.dfy`: the pairing protocol of tool calls and their answers,
  and the compaction cascade.
- `budget.dfy`: prices as integers in units of 1e-8 USD, and the shared budget object.
- `agent_spec.dfy`: one clause run as a small-step machine over its durable rows.
  `agent_run.dfy` is the imperative loop over the tables of runs and steps, proved to do
  what the machine does; `agent_recovery.dfy` lets the machine be killed between any two
  steps; `agent_crashes.dfy` says exactly when that is harmless; `agent_rerun.dfy` and
  `agent_replay.dfy` run a clause whose run has ended, `agent_budget.dfy` is a durable run
  with a budget, `agent_accounts.dfy` what a run reports about itself; `agent_turns.dfy` is
  about what a turn appends, `agent_history.dfy` and `agent_requests.dfy` about the requests
  a run sends, `agent_forced.dfy` about the one that forces the submission;
  `agent_calls.dfy` bounds them.
- `fanout.dfy`, `fanout_results.dfy`, `fanout_again.dfy`, `fanout_tight.dfy`,
  `fanout_kept.dfy`, `fanout_cost.dfy`: the concurrent analysis as interleaved critical sections.
  `agent_in_fanout.dfy` and `agent_fleet.dfy` show that any interleaving of the machines of
  `agent_spec.dfy` over one ledger is such a run; `agent_late.dfy` counts what such
  machines still ask once the budget is used up.
- `analyses.dfy`, `fake_store.dfy`, `review.dfy`, `report.dfy`, `retry.dfy`: the analyses
  table in both stores, the review session, the report input, backoff and clause splitting.
- `pipeline_spec.dfy`: every command as a list of atomic effects, a crash being a prefix.
  `pipeline.dfy` is the imperative program over a store object, proved to have those
  effects; `pipeline_outcomes.dfy` says what each command leaves, `pipeline_report.dfy` what
  the report model is asked; `pipeline_safety.dfy`, `pipeline_lives.dfy` and
  `pipeline_restart.dfy` are about whole lives of a contract; `fanout_in_pipeline.dfy` ties
  the interleaved fan-out to them.

## Where the code and its documentation disagree

The model follows the code. The repository's README says otherwise in these places:

- "Crashes do not lose work": a crash after a submitting step is stored and before the run
  is marked as submitted loses the finding. A crashed and restarted run is the run nobody
  interrupted if and only if no interruption fell there
  (`AgentCrashes.RefinesIffSpared`), and some interruption does (`AgentCrashes.ARunIsLost`).
- "There is no per-agent budget that could collectively exceed the cap": the check and the
  recording are separate critical sections, so the cap is overrun by up to one call per
  slot (`AgentFleet.CrewOvershoot`), and that bound is reached
  (`FanoutTight.OvershootReached`). Every run keeps the cap on steps if and only if there is
  one slot (`FanoutKept.StepsKeptIff`), a cap on tokens if and only if, besides, no call
  uses more than one token, or none uses any (`FanoutKept.TokensKeptIff`), and a cap on cost
  if and only if calls cost less than 15 units, hence nothing, or there is one slot,
  calls cost less than 30 units and the cap is a multiple of 15 (`FanoutCost.CostKeptIff`).
- "The shared budget is checked before each LLM call": the check is a section of its own,
  the summary is asked for before it, and a call whose check has passed is made whatever
  happens in between. Once the budget is used up, each completion whose check has passed
  may still begin, and one summary for each agent that can still reach the head of its loop,
  and nothing else (`AgentLate.LateCallsBounded`); with n slots n - 1 such completions and n
  such summaries are reached (`AgentLate.LateCallsReached`). No completion begins late if
  and only if there is one slot (`AgentLate.NoLateCompletionIff`), and no call at all if and
  only if there is one slot and no context manager (`AgentLate.NoLateCallIff`).
- "Re-running the pipeline never re-bills": running a clause again whose run has ended asks
  the provider again if and only if the run did not submit, a step may be made and the
  budget is not exceeded (`AgentRerun.RerunBillsIff`); `AgentRerun.ARunIsBilledTwice` is
  such a run. Nothing of the second run is recorded (`AgentRerun.RerunLeavesNoTrace`).
  Analysing a contract again runs exactly the clauses for which no earlier run saved a
  finding (`FanoutAgain.RunAgainIff`), each from its start, as often as that happens
  (`FanoutAgain.PaidEveryTime`).
- "The budget is also restored from saved totals": the totals are written only when a run
  ends, so a restart restores nothing (`AgentBudget.RestoreAddsNothing`), and over k
  processes a clause can spend k times its limit (`AgentBudget.SpentReached`): the limit is
  kept over a clause if and only if at most one process works on it
  (`AgentBudget.StepsKeptIff`). No command
  of the program combines a store with a budget; only a user of the agent package can.
- A submitted run that is run again replays whatever row of its clause has the greatest
  key, and keys are drawn at random. It fails if there is none, as when only the
  single-clause command has run (`AgentReplay.TheSecondRunFails`); it returns the run's own
  finding under every draw of keys if and only if each row of the clause says the same
  (`AgentReplay.ReplayWhateverTheKeys`), and behind an analysis of the contract that saved
  the finding if and only if the clause never failed before (`AgentReplay.ReplayAfterFanout`).
  A failed row is returned as a finding without a risk level, and the command that prints it
  panics (`AgentReplay.CommandPrintsIff`).
- A contract whose process died at `analyzing_clauses`, `analyzed` or `summarizing` cannot
  be moved on by any command, and one that died before the review step can never be
  finished (`PipelineRestart.RestartCharacterisation`); `process` can die at each of the
  three (`PipelineRestart.StuckByACrash`).
- Compaction may cut between a tool call and its answer, with the default settings
  (`AgentHistory.CompactionCanOrphan`); `Compaction.PreparePairing` gives the exact condition.

## Model

| member | source | states |
|---|---|---|
| AgentRecovery.CrashedRunsRefine | agent/agent.go:71-227 | Under any schedule of crashes, provider errors and restarts that spares the window after a submitting step, a run that returns a result has the stop, finding, persisted snapshots and final status of the run nobody interrupted, every request it sent is one that run sent at the same step, and resumption point plus resumed steps is the full step count |
| AgentRecovery.RestartCompletes | agent/agent.go:83-91 | From wherever such a schedule left an unfinished run, one undisturbed restart succeeds exactly when the uninterrupted run does, and then with its outcome |
| AgentCrashes.RefinesIffSpared | agent/agent.go:203-227 | Over schedules that may interrupt anywhere, a run that returns a result is the run nobody interrupted if and only if no interruption fell between storing a submitting step and marking the run as submitted |
| AgentCrashes.SubmitWindowLosesFinding | agent/agent.go:203-217 | A crash there loses the finding: whatever the restarted process returns, it is not what the run would have returned; at the step limit it reports the limit, before it the history holds a submission nobody answers |
| AgentCrashes.ARunIsLost | agent/agent.go:203-217 | A concrete schedule that is interrupted there, returns, and returns something else |
| AgentCrashes.WindowIsReached | agent/agent.go:171-207 | A model that submits at once takes a run into the window in its first step, for every positive step limit |
| AgentCrashes.RepeatedWorkBounded | store/postgres.go:338-351 | Over every schedule, wherever it interrupts, persisted step indices are exactly 0..n-1 with n at most the step limit, and completions exceed n by at most the number of interruptions, plus one not yet persisted |
| AgentCrashes.AlwaysTidy | agent/agent.go:83-247 | Over every schedule rows and process fit: the process stands at the step after the last stored one of the run it is attached to, and an ended row names its stop and step count |
| AgentCrashes.ReturnedFindingComplete | agent/agent.go:211-246 | However a run was interrupted, it returns a finding exactly when it stopped by submitting, and that finding is complete |
| AgentRerun.RerunBillsIff | agent/agent.go:71-135 | Running a clause whose run has ended asks the provider again if and only if the run did not submit, a step may be made and the budget is not exceeded; the first question is the one the run began with |
| AgentRerun.ARunIsBilledTwice | agent/agent.go:83-99 | A concrete run that ends at the step limit after one question, which is asked again when the clause is run again |
| AgentRerun.RerunLeavesNoTrace | agent/agent.go:83-99 | A run that ended at the step limit or the budget starts over at step 0 under an id without a row, and nothing it does is recorded |
| AgentReplay.ReplayIff | store/postgres.go:410-439 | A submitted run that is asked for again fails exactly when the table has no row of its clause, and returns its step count and the content of its finding (risk, explanation, ambiguous language, recommendations) exactly when the row of the clause with the greatest key has that content |
| AgentReplay.ReplayWhateverTheKeys | store/postgres.go:410-439 | It does so under every draw of distinct keys if and only if the clause has a row and each of its rows has that content |
| AgentReplay.ReplayAfterFanout | pipeline/analyze.go:97-152 | Over any life of the table in which an analysis of the contract saved that finding, every draw replays it if and only if that is the only row of the clause; otherwise some draw returns, as submitted, a finding without a risk level, on which the command panics |
| AgentReplay.TheSecondRunFails | main.go:365-414 | A concrete run of the single-clause command that submits and, as the command saves no row, fails when it is asked for again |
| AgentReplay.AFailureIsReplayed | pipeline/analyze.go:53-152 | A concrete clause, failed on once by the analysis and then found, whose own submitted run returns the failure as its finding when it is asked for again, on which the command panics |
| AgentReplay.CommandPrintsIff | main.go:399-412 | Asked for a submitted clause again, the command fails exactly when the table has no row of it, prints a result exactly when the row with the greatest key has a risk level, and otherwise panics |
| AgentReplay.OwnRunPrints | main.go:399-412 | It never panics on a run of its own, wherever that was interrupted |
| AgentReplay.LatestMeans | store/postgres.go:410-439 | The row read is the one of its clause with the greatest key, and none is read exactly when there is none |
| AgentBudget.RestoreAddsNothing | agent/agent.go:92-94 | Over every schedule with a budget a restart works with the budget it was given, which accounts for what the clause has spent exactly when it has spent nothing |
| AgentBudget.RestartRestores | agent/budget.go:72-77 | What a restart would restore is the tokens and the cost of the row, and neither the calls nor the kinds of tokens |
| AgentAccounts.RunAccounts | agent/agent.go:136-247 | A process that returns a result of its own reports as usage exactly what it recorded in the budget and as steps exactly its replies; it submitted if it has a finding, used up its steps, or ran out of budget before it had; and its row holds that stop, those steps and what the budget held |
| AgentAccounts.ReplayReports | agent/agent.go:76-82 | Run again after it was submitted, a run reports the same steps and, as input tokens, all the tokens its budget held at its end |
| AgentBudget.AlwaysUnwritten | store/postgres.go:353-364 | A row that is still running never holds any usage |
| AgentBudget.SpentBounded | agent/budget.go:47-77 | Over every schedule with k processes a clause spends at most k times the step limit, and, when replies are bounded, k times the token or cost limit plus less than one call |
| AgentBudget.SpentReached | agent/agent.go:83-144 | The three bounds are met at once, with equality, by a concrete model in one run that never ends, for every number of processes, calls a process may make, call size and model |
| AgentBudget.StepsKeptIff | agent/agent.go:83-144 | For every k and limit, all schedules with k processes keep the step limit over the clause if and only if k is at most one |
| AgentRecovery.InvHolds | agent/agent.go:106-207 | In every state a spared schedule reaches, each stored snapshot is the one the undisturbed run would store at that step, and the process holds the history of that step |
| AgentRecovery.StepKeeps | agent/agent.go:106-217 | Every single step of a working process keeps that invariant |
| AgentRecovery.BeginKeeps | agent/agent.go:71-100 | Starting or resuming a process keeps it |
| AgentRecovery.EndIsUnique | agent/agent.go:211-246 | A run has at most one end: the step count, the stop and the finding are determined |
| AgentRecovery.ResumesAtEnd | agent/agent.go:83-91 | A restart of a running row continues with the messages of its last step, one step further |
| AgentRun.Run | agent/agent.go:65-247 | The imperative run returns, writes, spends and sends exactly what the undisturbed machine does from the rows and budget it found |
| AgentRun.RunLoop | agent/agent.go:102-247 | The loop and the finish after it, from any step on, agree with the machine |
| AgentRun.RunStep | agent/agent.go:106-201 | One iteration up to the durable write stays on the machine's path, whether the budget stops it, the provider fails or a reply comes; unless the budget stops it, it sends one request, with the prepared history, 1024 tokens and submit_finding forced exactly in the last step |
| AgentRun.PersistStep | agent/agent.go:203-211 | Storing the step and deciding between finishing and going on stays on that path |
| AgentRun.Finish | agent/agent.go:229-246 | Recording how the run ended stays on that path |
| AgentRun.PlayTurn | agent/agent.go:146-201 | The messages appended after a reply and the finding are those of the turn function |
| AgentRun.PrepareContext | agent/agent.go:111-117 | Compacts the history when there is a context manager, else leaves it |
| AgentRun.AnswerAll | agent/agent.go:164-194 | Calls are answered in order up to the first valid submission |
| AgentRun.AgentStore.StartAgentRun | store/postgres.go:323-336 | Adds a running row, which is the clause's latest run and has no steps; a taken id is refused and nothing changes |
| AgentRun.AgentStore.AppendAgentStep | store/postgres.go:338-351 | Upserts the snapshot of that step of that run; for an id that was never inserted nothing changes |
| AgentRun.AgentStore.FinishAgentRun | store/postgres.go:353-364 | Updates the row of that id only |
| AgentRun.AgentStore.LoadAgentRun | store/postgres.go:366-408 | Returns the latest run and all its steps, each once, in ascending step order |
| AgentSpec.ParseAndValidateFinding | agent/agent.go:274-299 | A finding is accepted exactly when it decodes, its risk level is one of the three, and explanation and recommendations are not empty; it then names the clause and carries the decoded fields |
| AgentHistory.RequestsPairedIff | agent/agent.go:146-201 | All requests up to a step pair every tool call with its answer, contiguous and in order, if and only if no compaction so far cut between a call and its answers |
| AgentHistory.TurnPairing | agent/agent.go:146-201 | A turn keeps a paired history paired exactly when it does not submit |
| AgentRequests.PromptAlwaysFirst | agent/agent.go:66-207 | Over every schedule, wherever it interrupts, each request, each stored history and the running process begin with the task prompt rendered when the run started |
| AgentRequests.PromptAlwaysFirstWithBudget | agent/agent.go:66-207 | And so with a budget, however often the clause is run again after its run has ended |
| AgentRequests.EveryRequest | agent/agent.go:111-135 | Over every schedule each request is prepared from the prompt or from what the step before it stored, forces submit_finding exactly in the last step, allows 1024 tokens, begins with the prompt and ends with the latest messages of that history; over every spared one that history is the undisturbed run's, and the request is paired while compaction cut cleanly |
| AgentForced.AlwaysFramed | agent/agent.go:125-134 | Over every schedule each request allows 1024 tokens and forces submit_finding exactly when it is that of the last step |
| AgentForced.AlwaysFramedWithBudget | agent/agent.go:125-134 | And so with a budget and after reruns |
| AgentForced.ObedientProcess | agent/agent.go:106-247 | If the model submits whenever it answers a request that forces it to, no process that begins below the step limit stops at it, with a store or a budget or without |
| AgentForced.ObedientRun | agent/agent.go:106-247 | And over every schedule such a run stops at the limit only if an interruption fell between storing a submitting step and recording the submission |
| AgentTurns.TurnForm | agent/agent.go:146-201 | After a reply the history is the one that was sent, the reply with its calls, one answer for each call in front of the first valid submission in order, with what the tool returned or why not, and the program's own message where the source adds one; the finding is that of that submission |
| AgentHistory.PromptStaysFirst | agent/context.go:63-78 | Through any number of steps and compactions the first message is the task prompt |
| AgentHistory.FindingIsValidated | agent/agent.go:164-175 | A finding comes from a submitting call of the reply whose arguments passed validation |
| AgentHistory.CompactionCanOrphan | config/config.go:80-97 | With the default window, trigger and number of recent messages and the fallback tokenizer, eviction leaves answers without their call in the second request of a concrete run |
| AgentCalls.ProviderCallsBounded | agent/agent.go:106-135 | Made one after another, durable or not, with R retries a call, N runs cost at most 2 * N * maxSteps * (R + 1) attempts, summaries included, wherever each starts |
| AgentCalls.AttemptsWithinQuota | agent/context.go:46-52 | One process makes at most one summary and one completion for each step it has left |
| AgentFleet.CrewIsFanout | pipeline/analyze.go:76-151 | Any interleaving of the steps of real processes over one ledger, with launches, cancellations and the saving of results, is a run of the fan-out with that ledger and agents that stand where the processes stand |
| AgentFleet.CrewOvershoot | agent/agent.go:119-144 | So N interleaved processes overrun each shared limit by less than one call per slot |
| AgentFleet.CrewCallsBounded | agent/agent.go:106-135 | Over every interleaving N processes make at most 2 * N * maxSteps calls, summaries included, and 2 * N * maxSteps * (R + 1) attempts through the retrying client |
| AgentLate.LateCallsBounded | agent/agent.go:111-135 | Over every interleaving of real processes, once the shared budget is exceeded it stays so, less than one completion per slot still begins, and calls in all grow by at most those and one summary for each agent that can still reach the head of its loop |
| AgentLate.LateCallsReached | agent/agent.go:111-135 | For every number of slots n a concrete interleaving meets both bounds: after the budget was exceeded n - 1 completions and, with a context manager, n summaries |
| AgentLate.NoLateCompletionIff | agent/agent.go:119-135 | All interleavings with a given number of slots begin no completion after the budget was exceeded if and only if there is one slot |
| AgentLate.NoLateCallIff | agent/agent.go:111-135 | They make no call at all after it, summaries included, if and only if there is one slot and no context manager |
| AgentInFanout.RunSimulated | pipeline/analyze.go:97-102 | From any point of any interleaving, running an agent's process to its return is itself a continuation of the interleaving: the agent ends with that result, the shared ledger agrees and no other agent moves |
| AgentInFanout.StartSimulated | pipeline/analyze.go:97-102 | A freshly launched agent is where a freshly started process without a store is |
| Compaction.Prepare | agent/context.go:32-61 | The imperative cascade computes the specification function and has the result that PreparedCases describes |
| Compaction.PreparedCases | agent/context.go:32-112 | A history is left alone under the trigger, has its long tool results shortened when that is enough, and else has its middle replaced by one message with exactly what the summariser answered about it, or by nothing when that fails or does not fit |
| Compaction.TranscriptOfOne | agent/context.go:94-98 | The summariser sees of one message its role, its content and a line end |
| Compaction.TranscriptAppend | agent/context.go:94-98 | And of two lists the lines of the first, then those of the second |
| Compaction.OverflowsOnlyByEnds | agent/context.go:32-61 | With the trigger not above the window, the result overruns the window exactly when the pinned and the recent messages alone do, and is then those two |
| Compaction.PreparePairing | agent/context.go:32-78 | A paired history stays paired exactly when eviction does not leave a tool message at the head of the recent block |
| Compaction.EndsSurvive | agent/context.go:63-78 | The first message and the last min(keepRecent, n - 1) messages are an unchanged prefix and suffix of the result |
| Compaction.LengthAfterPrepare | agent/context.go:46-58 | An evicted history has at most keepRecent + 2 messages; the list grows, by one, exactly when a summary is put in for an empty middle and fits |
| Compaction.PreparedForm | agent/context.go:32-61 | Only the middle is ever replaced, and the result is under the trigger, or inside the window, or has lost the middle |
| Compaction.TruncationLaws | agent/context.go:80-92 | Truncation is idempotent although 519 runes exceed the 500-rune trigger, bounds every tool result by 519, keeps 250 runes at both ends around the mark, shortens anything longer than 519 and changes nothing else |
| Compaction.TruncateToolResults | agent/context.go:80-92 | The loop over a copy computes the specification function |
| Compaction.Summarize | agent/context.go:94-112 | The summariser is asked about the transcript of all messages in order; its answer is the content of a plain assistant message, and failure is reported |
| Pairing.PairedSuffix | agent/context.go:70-77 | A paired history may be cut anywhere except in front of a tool message |
| Pairing.PairedAppend | agent/context.go:114-120 | A paired history is extended to a paired one exactly by paired ones |
| Tokens.CountMessages | tokens/count.go:21-36 | The nested loops compute the cost function, for any tokenizer |
| Tokens.CostAdditive | tokens/count.go:21-36 | The cost of a concatenation is the sum of the costs |
| Tokens.CostOfOne | tokens/count.go:21-36 | Of one message the role, the content, the name and arguments of each call and the id of the call it answers are counted, and four more |
| Pricing.EstimateLinear | cost/pricing.go:14-22 | The price of a sum of usages is the sum of the prices, known model or not |
| Pricing.ListPrices | cost/pricing.go:5-12 | The prices of the six listed models, in units a token |
| Budgets.Budget.Record | agent/budget.go:47-55 | Adds one step, both token counts, their sum and the price, and nothing else |
| Budgets.Budget.Exceeded | agent/budget.go:57-70 | True exactly when some positive limit has been reached |
| Budgets.Budget.RestoreTokens | agent/budget.go:72-77 | Adds to the total and the cost but neither to the split nor to the steps |
| Budgets.Budget.Snapshot | agent/budget.go:79-92 | Returns what has been recorded and changes nothing |
| Fanout.BudgetOvershoot | agent/budget.go:47-70 | Over every interleaving steps stay at or below the limit - 1 + C, tokens at or below the limit - 1 + C * M, and cost likewise, for C slots and calls of at most M tokens |
| Fanout.NoCheckPasses | agent/agent.go:119-135 | Once the budget is exceeded it stays exceeded and no further budget check passes |
| Fanout.ConcurrencyBound | pipeline/analyze.go:76-81 | Never more clauses in work than slots, nor more calls in flight than clauses in work |
| Fanout.CallsBounded | agent/agent.go:106-135 | Over every interleaving the agents together pass at most N * maxSteps budget checks, hence begin at most that many completions |
| FanoutTight.OvershootReached | agent/agent.go:119-144 | For every number of slots, step limit, call size and price some interleaving meets the step, token and cost bounds at once with equality |
| FanoutKept.StepsKeptIff | agent/budget.go:47-77 | For every number of slots and every limit, all runs over distinct clauses keep the cap on steps if and only if there is one slot |
| FanoutKept.TokensKeptIff | agent/budget.go:47-77 | And all runs whose calls use up to a given number of tokens keep the cap on tokens if and only if that number times the slots is at most one |
| FanoutCost.CostKeptIff | agent/budget.go:47-77 | And for every cap on cost and every bound on the cost of a call, all runs keep the cap if and only if calls cost less than 15 units of 1e-8 USD, or there is one slot, calls cost less than 30 and the cap is a multiple of 15 |
| FanoutResults.ExactlyOnce | pipeline/analyze.go:65-154 | At the end of any interleaving every clause was dispatched and counted once and has exactly one row: ok with what was found when its run submitted, else failed with the reason and nothing else |
| Fanout.StoppedBecause | agent/agent.go:119-123 | At every moment an agent that was stopped is stopped by the step limit, or by the budget while that is exceeded |
| FanoutResults.OrderDoesNotShow | pipeline/analyze.go:79-154 | For the same outcomes two interleavings leave tables that every reader sees alike |
| FanoutResults.TotalsReconcile | pipeline/analyze.go:103-141 | The fan-out's token total and the tokens of errored clauses add up to the budget's, and so do the costs when every reply came from the configured model |
| FanoutResults.LedgerReconciles | agent/agent.go:136-144 | At every moment tokens are input plus output, and each is the sum over the agents |
| FanoutResults.RestartableAnalysis | pipeline/analyze.go:53-56 | Over any crash-interrupted sequence of runs a clause gets at most one successful row and none after it, so the last-wins map shows the success whenever there is one |
| FanoutAgain.RunAgainIff | pipeline/analyze.go:53-56 | Over any crash-interrupted sequence of runs a clause is in the work of a run if and only if no earlier run saved a finding for it |
| FanoutAgain.PaidEveryTime | pipeline/analyze.go:76-154 | For every n a life in which n runs of a clause, each paid for, fail and one more, paid for too, succeeds |
| FanoutInPipeline.InterruptedFanoutIsACrash | pipeline/analyze.go:79-154 | What an interleaving stopped anywhere leaves of the contract is what some crash point of the analysis command leaves |
| FanoutInPipeline.CanComplete | pipeline/analyze.go:76-154 | No interleaving is ever stuck before its end, and what it has saved stays saved |
| FanoutInPipeline.FanoutDisposes | pipeline/analyze.go:65-154 | A finished interleaving over the clauses that are left has saved exactly one row for each of them and none for another |
| Analyses.SuccessWins | pipeline/summarize.go:58-61 | Where no row follows a success, the last-wins map shows a success exactly when there is one |
| Analyses.TheSuccessWins | pipeline/summarize.go:58-61 | A successful row is the only one of its clause, and the map shows it |
| Analyses.NeedingAnalysisMeans | pipeline/analyze.go:173-199 | The clauses to analyse are exactly those without a successful row |
| Analyses.NeedingAnalysisInOrder | pipeline/analyze.go:190-197 | In their order |
| Analyses.ClausesNeedingAnalysis | pipeline/analyze.go:173-199 | The two loops compute that list |
| Analyses.LastWinsIsNewest | pipeline/summarize.go:58-61 | The map holds the newest row of every clause that has one, and no other key |
| Newest.BuildByKey | pipeline/summarize.go:58-70 | The loops over analyses and reviews build the last-wins map |
| Newest.HoldsTheNewest | pipeline/summarize.go:58-70 | The map holds, for every key some row has, the last row that has it |
| Newest.HoldsARow | pipeline/summarize.go:58-70 | And nothing else |
| FakeStores.FakeStore.SaveAnalysis | store/fake.go:95-100 | The map stays the newest row of each clause among all rows saved |
| FakeStores.FakeStore.GetAnalyses | store/fake.go:102-113 | The read gives what is stored for the clauses, one after another |
| FakeStores.ReadInOrder | store/fake.go:102-113 | Reading two lists of clauses is reading the first and then the second |
| FakeStores.StoresAgree | store/fake.go:102-113 | Readers that take the newest row of each clause see the same as in the table that keeps every row |
| FakeStores.StoresLeaveTheSame | store/fake.go:95-113 | The clauses left to analyse are found the same exactly when no success of one of them is followed by a failure, as in every table the program produces |
| PipelineLives.StatusAndData | main.go:235-282 | At every moment of every life the status and the data agree (text once extracted, a numbered clause list once split, a row per clause once analysed, decisions once reviewed, a summary once done), and from any moment to a later one the status does not go back, a clause list is not rewritten and rows are only added |
| PipelineLives.ReviewGate | main.go:235-282 | Whenever in any life the report model is about to be asked, every clause has an analysis, and if review was required a stored decision; the request has one entry per clause, numbered 1..n, with that decision and annotation, the risk word, cut explanation, cut recommendations and ambiguous language of its newest analysis (the successful one where there is one), and the counts of these entries |
| PipelineLives.ReviewThenResume | pipeline/review.go:65-183 | A review session keeps earlier decisions, adds one per remaining clause in order as far as the input goes, each the decision of its line with the trimmed note, returns exactly when the input holds enough decisions, and exactly then a resume is let through |
| PipelineRestart.RestartCharacterisation | main.go:95-282 | Some commands move a consistent contract on exactly when its status is not analyzing_clauses, analyzed, summarizing or done; some bring it to the end exactly from review_pending, review_complete or done |
| PipelineRestart.StuckByACrash | main.go:235-282 | For each of analyzing_clauses, analyzed and summarizing a life of one process command, cut short, that ends there and can neither be moved on nor finished |
| PipelineRestart.StuckStays | pipeline/clause_splitting.go:71-77 | From those four statuses no command has any effect |
| PipelineRestart.NeverFinishes | main.go:255-282 | No sequence of commands, however interrupted, takes a contract from before the step after the analysis to its end |
| PipelineSafety.CommandSafe | main.go:95-282 | Every effect of every command, wherever it is given, meets the condition under which it keeps the invariant |
| PipelineSafety.SafePrefix | pipeline/extract.go:41-65 | So stopping after any effect leaves the invariant in place and takes nothing back |
| PipelineSafety.GuardedStep | store/postgres.go:66-186 | One guarded write keeps the invariant |
| PipelineSafety.NothingMissing | pipeline/review.go:163-176 | No clause is missing a decision exactly when each has a stored approval or rejection |
| PipelineSafety.DisposedTable | pipeline/analyze.go:53-56 | Rows of a finished fan-out never follow a success and leave no clause without a row |
| PipelineReport.BriefIsReport | pipeline/summarize.go:46-175 | The report request has one entry per clause in order: its number, its stored decision and annotation or none, the risk word, the cut explanation and recommendations and the ambiguous language of its newest analysis; and its counts are those of the entries |
| PipelineReport.CommandAsks | pipeline/summarize.go:46-93 | Whatever the command, it asks with the rows stored at that moment |
| PipelineReport.EntriesAscend | pipeline/summarize.go:50-52 | Whatever order the clauses are read in, the entries are in that of their numbers |
| PipelineOutcomes.ProcessOutcome | main.go:235-282 | What an uninterrupted process leaves of every field, whatever goes wrong: it succeeds exactly when the text is read, the clauses are split and, without review, the report is written, and ends at review_pending if a review is required and at done otherwise |
| PipelineOutcomes.CommandOutcome | main.go:109-187 | What every other command leaves of a consistent contract and whether it succeeds: a finished stage is left alone and succeeds, one whose turn it is not is left alone and refused |
| PipelineOutcomes.ReviewedLife | main.go:270-276 | A contract that requires review goes from a process to review_pending, through any session whose input decides on each clause, and by a resume to done |
| PipelineOutcomes.AReviewedLife | main.go:270-276 | There is such a life |
| Pipeline.RunProcess | main.go:235-253 | Creates a contract and leaves exactly the effects of the composed stages, in order, stopping at the first stage that fails, and every field as ProcessOutcome says |
| Pipeline.RunPostAnalysis | main.go:255-282 | Leaves exactly the effects of the step after the analysis: review_pending when review is required, else the report |
| Pipeline.RunExtractStages | pipeline/extract.go:41-65 | Leaves the three writes of an extraction, or only the first when the text cannot be read |
| Pipeline.RunExtractContract | pipeline/extract.go:29-39 | Does nothing from extracted on, else extracts |
| Pipeline.ExtractClauses | pipeline/clause_splitting.go:61-108 | Status, the clauses the client yields, status, in that order, or a refusal, a no-op, or a stop after the first write |
| Pipeline.SplitNow | pipeline/clause_splitting.go:79-108 | From extracted on: the first status, and the clauses and the second status exactly when the client yields clauses |
| Pipeline.NumberClauses | pipeline/clause_splitting.go:88-96 | Clauses are numbered from 1 in the model's order |
| Pipeline.AnalyzeClauses | pipeline/analyze.go:36-171 | Refuses, does nothing, or leaves exactly the effects of the analysis stage |
| Pipeline.FanOut | pipeline/analyze.go:49-168 | Marks the start, lets one complete interleaving of the agents of exactly the clauses that are left save its rows in its order, marks the end |
| Pipeline.RunAgents | pipeline/analyze.go:79-152 | Any interleaving of the agents leaves in the store exactly the rows it saves, in that order |
| Pipeline.AskForClauses | pipeline/clause_splitting.go:83-86 | Yields the client's clauses, or nothing when it fails or cannot be read |
| Pipeline.StoreClauses | pipeline/clause_splitting.go:88-104 | Stores the numbered clauses before the status |
| Pipeline.RunReview | pipeline/review.go:38-140 | Saves exactly the reviews of the session over the clauses not yet reviewed, each the decision of its input line with the trimmed note |
| Pipeline.RunResume | pipeline/review.go:144-183 | Refuses while a decision is missing, else completes the review and writes the report |
| Pipeline.RunSummarize | pipeline/summarize.go:19-117 | Asks once, after the status write, with the brief of the stored rows, and saves the summary before the file and the final status |
| Pipeline.ReviewAll | pipeline/review.go:70-136 | The loop over all clauses, skipping the reviewed ones, saves the reviews of the session and completes exactly when the session does |
| Pipeline.ReviewClause | pipeline/review.go:97-134 | Asks about one clause and saves one review, or none when the input runs out |
| Pipeline.CountMissing | pipeline/review.go:163-173 | The counter is the number of clauses without a review |
| Pipeline.CompleteReview | pipeline/review.go:178-182 | Marks the review complete and goes on to the report |
| Pipeline.PrepareBrief | pipeline/summarize.go:46-72 | Sorting, the two last-wins maps and the counting pass yield the brief of the stored rows |
| Pipeline.SaveReport | pipeline/summarize.go:95-116 | Saves the summary, and the final status only once the file is written |
| Pipeline.ContractStore.UpdateContractStatus | store/postgres.go:66-74 | Changes the status and nothing else |
| Pipeline.ContractStore.UpdateContractText | store/postgres.go:76-84 | Changes the text and nothing else |
| Pipeline.ContractStore.SaveClauses | store/postgres.go:86-108 | Adds all clauses in one transaction |
| Pipeline.ContractStore.SaveAnalysis | store/postgres.go:122-139 | Appends one row |
| Pipeline.ContractStore.SaveReview | store/postgres.go:153-163 | Appends one review |
| Pipeline.ContractStore.SaveSummary | store/postgres.go:177-186 | Replaces the summary |
| Reviewing.SessionOutcome | pipeline/review.go:73-136 | The session gets through exactly when a three-state reading of the input finds a decision for each clause, and saves min of the two, in clause order: approved for a line that trims to a or A, rejected for r or R, with the trimmed annotation line in front of it or none |
| Reviewing.AsksForEver | pipeline/review.go:97-124 | However many empty lines are read behind the end of the input, none saves a review or completes a session, so a session the input does not complete asks for ever |
| Reviewing.ParseDecision | pipeline/review.go:25-36 | Each decision is one letter in either case with white space around it, and nothing else is a decision |
| Reviewing.Prompt | pipeline/review.go:97-124 | The prompt loop answers with the first decision of the three-state reading and its note, and leaves the rest of the input to be read |
| Reviewing.PromptVerdict | pipeline/review.go:109-119 | After a note the loop reads on to the first approval or rejection and answers with it |
| Reviewing.UnreviewedMeans | pipeline/review.go:163-173 | The remaining clauses are exactly those without a review |
| Reviewing.UnreviewedInOrder | pipeline/review.go:73-76 | In their order |
| Report.TruncationLaw | pipeline/summarize.go:190-205 | The result is the text, the longest proper prefix that fits with the ellipsis, or nothing when none does; within a budget that is not negative for a subadditive counter |
| Report.FallbackOverrunsByOne | tokens/count.go:10-19 | With the fallback counter every text that is cut ends one token over the budget |
| Report.TruncateToTokenBudget | pipeline/summarize.go:190-205 | The shrinking loop computes the specification function |
| Report.BuildInputs | pipeline/summarize.go:119-175 | One pass yields one entry per clause in order, quoting its analysis, and the counts of these entries |
| Report.AddClause | pipeline/summarize.go:130-172 | One iteration makes the report on some clauses the report on one more |
| Report.Quote | pipeline/summarize.go:159-171 | The entry of one clause: risk word, explanation and recommendations each cut to the token budget, decision, annotation and ambiguous language |
| Report.CountRisk | pipeline/summarize.go:134-145 | Exactly the counter of the clause's risk level goes up by one, none without a level |
| Report.CountReview | pipeline/summarize.go:147-157 | The counter of the decision goes up by one, and that of the overrides exactly for a high risk approved or a low risk rejected |
| Report.CountLaws | pipeline/summarize.go:134-188 | Overrides are the high risks approved plus the low risks rejected, never more than those risks or those decisions, and no count depends on clause order |
| Report.CountsAreOfEntries | pipeline/summarize.go:134-188 | The six counts are the numbers of entries with that risk word, with that decision, and with a high risk approved or a low risk rejected |
| Report.CountIsSetSize | pipeline/summarize.go:134-157 | Each count is the size of the set of clauses it names |
| Report.SortKeepsAscending | pipeline/summarize.go:50-52 | Clauses already numbered in strict order are quoted in that order |
| Report.SortSorts | pipeline/summarize.go:50-52 | Sorting yields a sorted permutation |
| Retry.Complete | llm/retry.go:37-72 | At most R + 1 attempts, the first answer or permanent error ends them, and r waits total between base * (2^r - 1) and that plus r * (base - 1) |
| Retry.ServedFrom | llm/retry.go:39-71 | From any attempt on at most the remaining attempts are made |
| Splitting.ExtractClausesFromLLM | pipeline/clause_splitting.go:39-59 | At most three replies and 3 * (R + 1) provider calls; the first reply that parses is returned, a client error ends it at once |
| Splitting.FenceDoesNotShow | pipeline/clause_splitting.go:22-37 | An array is read alike bare, fenced and fenced as JSON, with any white space around it, and accepted exactly when it decodes to a list that is not empty |
| Splitting.Texts | pipeline/clause_splitting.go:39-59 | Whatever the client and the decoder do, splitting never yields an empty list |

## Left out

- AgentRecovery.CrashedRunsRefine: is stated without a budget; AgentBudget says what a budget does to a durable run.
- AgentCrashes.RepeatedWorkBounded: counts completions of the loop, not the summaries asked for while preparing the context; AgentCalls and AgentFleet bound both together.
- AgentRun.AgentStore.StartAgentRun: holds the runs of one clause, so an id taken by a run of another clause is not modelled; ids are drawn distinct.
- AgentFleet.CrewCallsBounded: how the provider serves a call and what the call returns are independent here, which only adds runs.
- FanoutResults.RestartableAnalysis: takes rows in insertion order, which the query for them does not promise.
- FanoutInPipeline.InterruptedFanoutIsACrash: is about the rows of the contract, not about the budget, which is new for every command.
- FakeStores.FakeStore.SaveAnalysis: the analyses of one contract; the other maps of that store are not modelled.
- Pipeline.RunReview: reports failure where the program would ask an exhausted input again for ever; Reviewing.AsksForEver says why that is the same.
- Pipeline.RunSummarize: sees the report file only as written or not.
- Report.SortKeepsAscending: the order of equal numbers is not modelled; numbers are distinct in every reachable contract.
- Retry.Complete: durations are unbounded naturals, so overflow of a 64-bit delay and the request timeout are not modelled.
- PipelineLives.StatusAndData: assumes one process at a time on a contract and store writes that succeed; two processes on one contract can move its status backwards.
- Floating point: costs are integers in units of 1e-8 USD, in which the listed rates are exact; the compaction trigger is a given number.
- The model, the tools, the summariser, the JSON decoder, the prompt templates and the tokenizer are arbitrary functions; ids are drawn distinct.
- Cancellation is an interruption of the process; wall-clock time, request timeouts and tool schemas are not part of a request here.
- An extracted text that is empty and one that was never stored are different values here; the table holds an empty string for both.
- Failed writes of agent steps and analysis rows, which the program only logs, and the texts of error messages beyond their prefix.
- Provider clients, SQL, PDF extraction, contract tools, logging, tracing, dry runs, configuration and argument parsing.
