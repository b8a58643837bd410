/** `Run` of agent/agent.go and the table operations of store/postgres.go it uses,
    proved to do what the machine of AgentSpec does when nothing disturbs it. */
module AgentRun {
  import opened Wrappers
  import opened Domain
  import opened Llm
  import opened Budgets
  import opened AgentSpec
  import Compaction

  /** The agent_runs rows of one clause, in the order in which they were started, and
      the agent_steps rows of each of these runs. */
  class AgentStore {
    var runs: seq<RunRow>
    var steps: map<string, map<int, Snapshot>>

    /** The primary key of the runs, and the foreign key of the steps. */
    ghost predicate Valid()
      reads this
    {
      && (forall i, j :: 0 <= i < j < |runs| ==> runs[i].id != runs[j].id)
      && forall id :: id in steps ==> Known(id)
    }

    ghost predicate Known(id: string)
      reads this
    {
      exists i :: 0 <= i < |runs| && runs[i].id == id
    }

    function StepsOf(id: string): map<int, Snapshot>
      reads this
    {
      if id in steps then steps[id] else map[]
    }

    /** The latest run with its steps. */
    function Contents(): Rows
      reads this
    {
      if runs == [] then Rows(None, map[]) else Rows(Some(runs[|runs| - 1]), StepsOf(runs[|runs| - 1].id))
    }

    constructor ()
      ensures Valid() && Contents() == FRESH.rows
    {
      runs, steps := [], map[];
    }

    method Find(id: string) returns (found: Option<nat>)
      ensures found.None? <==> !Known(id)
      ensures found.Some? ==> found.value < |runs| && runs[found.value].id == id
    {
      for i := 0 to |runs|
        invariant forall k :: 0 <= k < i ==> runs[k].id != id
      {
        if runs[i].id == id { return Some(i); }
      }
      return None;
    }

    /** A second row for a taken id violates the primary key. */
    method StartAgentRun(id: string) returns (ok: bool)
      requires Valid()
      modifies this
      ensures Valid() && (ok <==> !old(Known(id))) && steps == old(steps)
      ensures runs == if ok then old(runs) + [RunRow(id, Running, 0, 0, 0)] else old(runs)
      ensures Contents() == if ok then Started(old(Contents()), id) else old(Contents())
    {
      var found := Find(id);
      ok := found.None?;
      if ok {
        runs := runs + [RunRow(id, Running, 0, 0, 0)];
        assert runs[|runs| - 1].id == id;
        assert forall k :: 0 <= k < |old(runs)| ==> runs[k] == old(runs)[k];
      }
    }

    /** A step of a run that was never inserted violates the foreign key. */
    method AppendAgentStep(id: string, step: int, snapshot: Snapshot)
      requires Valid()
      modifies this`steps
      ensures Valid()
      ensures steps == if Known(id) then old(steps)[id := old(StepsOf(id))[step := snapshot]] else old(steps)
      ensures Contents() == Appended(old(Contents()), id, step, snapshot)
    {
      var found := Find(id);
      if found.Some? {
        steps := steps[id := StepsOf(id)[step := snapshot]];
      }
    }

    method FinishAgentRun(id: string, stop: Stop, stepCount: int, tokens: nat, cost: nat)
      requires Valid()
      modifies this`runs
      ensures Valid() && |runs| == |old(runs)|
      ensures forall i :: 0 <= i < |runs| ==>
                runs[i] == if old(runs)[i].id == id then RunRow(id, Ended(stop), stepCount, tokens, cost) else old(runs)[i]
      ensures Contents() == Finished(old(Contents()), id, stop, stepCount, tokens, cost)
    {
      var found := Find(id);
      if found.Some? {
        runs := runs[found.value := RunRow(id, Ended(stop), stepCount, tokens, cost)];
      }
      assert forall k :: 0 <= k < |runs| ==> runs[k].id == old(runs)[k].id;
    }

    /** The steps come back in ascending step order, each once. */
    method LoadAgentRun() returns (found: Option<RunRow>, ordered: seq<(int, Snapshot)>)
      ensures found == Contents().run && IsOrdered(Contents().steps, ordered)
    {
      found, ordered := None, [];
      if |runs| == 0 { return; }
      found := Some(runs[|runs| - 1]);
      var mine := StepsOf(runs[|runs| - 1].id);
      var left := mine.Keys;
      while left != {}
        invariant left <= mine.Keys && IsTail(mine, left, ordered)
        decreases left
      {
        ghost var witnessed := LastIndexExists(left);
        var k: int :| k in left && forall j :: j in left ==> j <= k;
        TailGrows(mine, left, ordered, k);
        ordered := [(k, mine[k])] + ordered;
        left := left - {k};
      }
    }
  }

  /** Every step in ascending order of its index. */
  ghost predicate IsOrdered(steps: map<int, Snapshot>, ordered: seq<(int, Snapshot)>) {
    && (forall i, j :: 0 <= i < j < |ordered| ==> ordered[i].0 < ordered[j].0)
    && (forall i :: 0 <= i < |ordered| ==> ordered[i].0 in steps && steps[ordered[i].0] == ordered[i].1)
    && forall k :: k in steps ==> exists i :: 0 <= i < |ordered| && ordered[i].0 == k
  }

  /** The steps outside `left`, in order, all behind those in `left`. */
  ghost predicate IsTail(steps: map<int, Snapshot>, left: set<int>, ordered: seq<(int, Snapshot)>) {
    && (forall i, j :: 0 <= i < j < |ordered| ==> ordered[i].0 < ordered[j].0)
    && (forall i :: 0 <= i < |ordered| ==> ordered[i].0 in steps && steps[ordered[i].0] == ordered[i].1)
    && (forall i, k :: 0 <= i < |ordered| && k in left ==> k < ordered[i].0)
    && forall k :: k in steps ==> k in left || exists i :: 0 <= i < |ordered| && ordered[i].0 == k
  }

  lemma TailGrows(steps: map<int, Snapshot>, left: set<int>, ordered: seq<(int, Snapshot)>, k: int)
    requires left <= steps.Keys && k in left && (forall j :: j in left ==> j <= k) && IsTail(steps, left, ordered)
    ensures IsTail(steps, left - {k}, [(k, steps[k])] + ordered)
  {
    var grown := [(k, steps[k])] + ordered;
    forall i | 0 <= i < |grown|
      ensures grown[i].0 in steps && steps[grown[i].0] == grown[i].1
      ensures forall j :: i < j < |grown| ==> grown[i].0 < grown[j].0
      ensures forall x :: x in left - {k} ==> x < grown[i].0
    {
      if i > 0 {
        assert grown[i] == ordered[i - 1];
      }
    }
    forall j | j in steps
      ensures j in left - {k} || exists i :: 0 <= i < |grown| && grown[i].0 == j
    {
      TailCovers(steps, left, ordered, k, j);
    }
  }

  lemma TailCovers(steps: map<int, Snapshot>, left: set<int>, ordered: seq<(int, Snapshot)>, k: int, j: int)
    requires k in steps && j in steps
    requires j in left || exists i :: 0 <= i < |ordered| && ordered[i].0 == j
    ensures j in left - {k} || exists i :: 0 <= i < |ordered| + 1 && ([(k, steps[k])] + ordered)[i].0 == j
  {
    var grown := [(k, steps[k])] + ordered;
    if j == k {
      assert grown[0].0 == j;
    } else if j !in left {
      var i :| 0 <= i < |ordered| && ordered[i].0 == j;
      assert grown[i + 1].0 == j;
    }
  }

  ghost function RowsOf(store: AgentStore?): Rows
    reads store
  {
    if store == null then FRESH.rows else store.Contents()
  }

  ghost function LedgerOf(budget: Budget?): Option<Ledger>
    reads budget
  {
    if budget == null then None else Some(budget.Contents())
  }

  /** The answers from the call at `i` on, one call further. */
  lemma AnswersFrom(w: World, task: Task, calls: seq<ToolCall>, i: nat)
    requires i < |calls|
    ensures var here, rest := AnswerCalls(w, task, calls[i..]), AnswerCalls(w, task, calls[i + 1..]);
            if calls[i].name == SUBMIT_FINDING then
              match ParseAndValidateFinding(w, task, calls[i].args)
              case Success(finding) => here == Answered([], Some(finding))
              case Failure(e) =>
                here == Answered([ToolResult(calls[i].id, "invalid: " + e)] + rest.replies, rest.finding)
            else here == Answered([ToolReply(w, calls[i])] + rest.replies, rest.finding)
  {
    hide ParseAndValidateFinding, ToolReply;
    assert calls[i..][1..] == calls[i + 1..];
  }

  /** Lines 164-194: answer the calls of one response in order, up to a valid
      submission. */
  method AnswerAll(w: World, task: Task, history: seq<Message>, calls: seq<ToolCall>)
    returns (msgs: seq<Message>, finding: Option<ClauseAnalysis>)
    ensures msgs == history + AnswerCalls(w, task, calls).replies
    ensures finding == AnswerCalls(w, task, calls).finding
  {
    msgs, finding := history, None;
    var i := 0;
    assert calls[0..] == calls;
    assert AnswerCalls(w, task, []) == Answered([], None);
    hide AnswerCalls, ParseAndValidateFinding;
    while i < |calls|
      invariant 0 <= i <= |calls|
      invariant finding == None
      invariant msgs + AnswerCalls(w, task, calls[i..]).replies == history + AnswerCalls(w, task, calls).replies
      invariant AnswerCalls(w, task, calls[i..]).finding == AnswerCalls(w, task, calls).finding
    {
      var call := calls[i];
      AnswersFrom(w, task, calls, i);
      if call.name == SUBMIT_FINDING {
        var parsed := ParseAndValidateFinding(w, task, call.args);
        if parsed.Success? {
          finding := Some(parsed.value);
          return;
        }
        msgs := msgs + [ToolResult(call.id, "invalid: " + parsed.error)];
      } else {
        var result := w.dispatch(call);
        var text := if result.Success? then result.value else "tool error: " + result.error;
        msgs := msgs + [ToolResult(call.id, text)];
      }
      i := i + 1;
    }
    assert calls[i..] == [];
  }

  /** Lines 146-201: append the response and whatever answers it. */
  method PlayTurn(w: World, task: Task, step: int, prepared: seq<Message>, resp: Response)
    returns (msgs: seq<Message>, finding: Option<ClauseAnalysis>)
    ensures Turn(msgs, finding) == TakeTurn(w, task, step, prepared, resp)
  {
    msgs := prepared + [Message(Assistant, resp.content, resp.toolCalls, "")];
    finding := None;
    var stepsRemaining := w.maxSteps - step - 1;
    if |resp.toolCalls| == 0 {
      var content := NUDGE;
      if IsLast(w, step) {
        content := FINAL_NUDGE;
      }
      msgs := msgs + [UserMessage(content)];
    } else {
      msgs, finding := AnswerAll(w, task, msgs, resp.toolCalls);
      if stepsRemaining == 1 && finding.None? {
        msgs := msgs + [UserMessage(LAST_TOOL_CALL)];
      }
    }
  }

  method PrepareContext(w: World, msgs: seq<Message>) returns (out: seq<Message>)
    ensures out == Prepare(w, msgs)
  {
    if w.context.Some? {
      out := Compaction.Prepare(w.context.value, msgs);
    } else {
      out := msgs;
    }
  }

  /** The state the machine would be in, with the process at `proc`. */
  ghost function Here(store: AgentStore?, budget: Budget?, proc: Proc, start: int, sent: seq<Sent>, completions: nat): State
    reads store, budget
  {
    State(RowsOf(store), LedgerOf(budget), proc, start, sent, completions, 0)
  }

  datatype StepOutcome =
    | OutOfBudget
    | LlmFailed(error: string)
    | Replied(msgs: seq<Message>, reply: Usage, finding: Option<ClauseAnalysis>)

  /** Undisturbed, both states lead to the same end. */
  ghost predicate Same(w: World, task: Task, a: State, b: State) {
    Sane(w, a.proc) && Sane(w, b.proc) && Drive(w, task, a) == Drive(w, task, b)
  }

  /** A step of the machine does not change where it ends. */
  lemma OneTick(w: World, task: Task, s: State)
    requires Working(s.proc) && Sane(w, s.proc)
    ensures Same(w, task, s, Tick(w, task, s))
  {
    hide Tick, Distance;
    TickProgress(w, task, s);
  }

  /** Lines 111-201: one iteration of the loop up to the durable write. */
  method RunStep(w: World, task: Task, store: AgentStore?, budget: Budget?,
                 id: string, start: int, step: int, history: seq<Message>, usage: Usage,
                 ghost traffic: seq<Sent>, ghost completions: nat)
    returns (outcome: StepOutcome, total: Usage, ghost sent: seq<Sent>)
    requires budget != null ==> budget.limits == w.limits
    requires step < w.maxSteps
    modifies budget
    ensures var before := old(Here(store, budget, AtHead(id, start, step, history, usage),
                                   start, traffic, completions));
            match outcome
            case OutOfBudget =>
              Same(w, task, before, Here(store, budget, AtFinish(id, start, step - start, total, OverBudget, None),
                                         start, sent, completions))
            case LlmFailed(e) =>
              Same(w, task, before, Here(store, budget, Returned(Failure(e)), start, sent, completions))
            case Replied(msgs, reply, finding) =>
              Same(w, task, before,
                   Here(store, budget, AtAppend(id, start, step, msgs, total, reply, finding), start, sent, completions + 1))
    ensures sent == traffic + if outcome.OutOfBudget? then [] else
                                [Sent(step, Request(Prepare(w, history), 1024,
                                                    if step == w.maxSteps - 1 then "submit_finding" else ""))]
  {
    hide Drive, Distance, TakeTurn, Prepare;
    ghost var s := Here(store, budget, AtHead(id, start, step, history, usage), start, traffic, completions);
    ghost var asking := Tick(w, task, s);
    OneTick(w, task, s);
    if Working(asking.proc) {
      OneTick(w, task, asking);
    }
    total, sent := usage, traffic;
    var msgs := PrepareContext(w, history);
    if budget != null {
      var exceeded := budget.Exceeded();
      if exceeded {
        outcome := OutOfBudget;
        assert traffic + [] == traffic;
        return;
      }
    }
    var request := Request(msgs, STEP_MAX_TOKENS, "");
    if step == w.maxSteps - 1 {
      request := request.(forceToolName := SUBMIT_FINDING);
    }
    assert request == RequestFor(w, step, msgs);
    sent := sent + [Sent(step, request)];
    var completed := w.complete(request);
    if completed.Failure? {
      outcome := LlmFailed("llm complete: " + completed.error);
      return;
    }
    var resp := completed.value;
    total := Usage(usage.input + resp.inputTokens, usage.output + resp.outputTokens);
    if budget != null {
      budget.Record(resp.provider, resp.model, resp.inputTokens, resp.outputTokens);
    }
    var finding;
    msgs, finding := PlayTurn(w, task, step, msgs, resp);
    outcome := Replied(msgs, Usage(resp.inputTokens, resp.outputTokens), finding);
    assert Tick(w, task, asking) == Here(store, budget,
             AtAppend(id, start, step, msgs, total, outcome.reply, finding), start, sent, completions + 1);
  }

  /** Lines 203-207 and 211: persist the step, then finish or go on. */
  method PersistStep(w: World, task: Task, store: AgentStore?, budget: Budget?,
                     id: string, start: int, step: int, msgs: seq<Message>, usage: Usage, reply: Usage,
                     finding: Option<ClauseAnalysis>, ghost sent: seq<Sent>, ghost completions: nat)
    requires store != null ==> store.Valid()
    modifies store
    ensures store != null ==> store.Valid()
    ensures var before := old(Here(store, budget, AtAppend(id, start, step, msgs, usage, reply, finding),
                                   start, sent, completions));
            Same(w, task, before,
                 Here(store, budget,
                      if finding.Some? then AtFinish(id, start, step - start + 1, usage, Submitted, finding)
                      else AtHead(id, start, step + 1, msgs, usage), start, sent, completions))
  {
    if store != null {
      store.AppendAgentStep(id, step, Snapshot(msgs, reply.input, reply.output));
    }
  }

  /** Lines 211-218 and 233-239: record how the run ended, and return. */
  method Finish(w: World, task: Task, store: AgentStore?, budget: Budget?,
                id: string, ghost start: int, stop: Stop, stepCount: int, finding: Option<ClauseAnalysis>,
                usage: Usage, ghost sent: seq<Sent>, ghost completions: nat)
    returns (result: Result<RunResult>)
    requires store != null ==> store.Valid()
    modifies store
    ensures store != null ==> store.Valid()
    ensures Same(w, task, old(Here(store, budget, AtFinish(id, start, stepCount, usage, stop, finding),
                                   start, sent, completions)),
                 Here(store, budget, Returned(result), start, sent, completions))
  {
    if store != null {
      var snap := EMPTY;
      if budget != null {
        snap := budget.Snapshot();
      }
      store.FinishAgentRun(id, stop, stepCount, snap.tokens, snap.cost);
    }
    result := Success(RunResult(finding, stepCount, stop, usage));
  }

  /** At the step limit the machine goes to record the end. */
  lemma LimitIsTheEnd(w: World, task: Task, s: State)
    requires s.proc.AtHead? && s.proc.step >= w.maxSteps
    ensures Same(w, task, s, s.(proc := AtFinish(s.proc.id, s.proc.start, w.maxSteps - s.proc.start,
                                                 s.proc.usage, MaxSteps, None)))
  {
    hide Prepare, TakeTurn;
    var t := Tick(w, task, s);
    assert Drive(w, task, s) == Drive(w, task, t);
  }

  lemma DoneIsDone(w: World, task: Task, s: State)
    requires s.proc.Returned?
    ensures Drive(w, task, s) == s
  {
  }

  /** Lines 106-246: the loop from a given step on, and the finish after it. */
  method RunLoop(w: World, task: Task, store: AgentStore?, budget: Budget?,
                 agentRunID: string, startStep: int, history: seq<Message>)
    returns (result: Result<RunResult>, ghost sent: seq<Sent>)
    requires w.durable <==> store != null
    requires budget != null ==> budget.limits == w.limits
    requires store != null ==> store.Valid()
    modifies store, budget
    ensures store != null ==> store.Valid()
    ensures var end := Drive(w, task,
                             old(Here(store, budget, AtHead(agentRunID, startStep, startStep, history, Usage(0, 0)),
                                      startStep, [], 0)));
            && end.proc == Returned(result)
            && end.rows == RowsOf(store) && end.budget == LedgerOf(budget) && end.sent == sent
  {
    hide Drive;
    var msgs, usage := history, Usage(0, 0);
    var finalStop, stepsRun := MaxSteps, 0;
    var step := startStep;
    sent := [];
    ghost var completions: nat := 0;
    ghost var begin := Here(store, budget, AtHead(agentRunID, startStep, startStep, history, Usage(0, 0)), startStep, [], 0);
    while step < w.maxSteps
      invariant finalStop == MaxSteps && (store != null ==> store.Valid())
      invariant Same(w, task, begin, Here(store, budget, AtHead(agentRunID, startStep, step, msgs, usage), startStep, sent, completions))
      decreases w.maxSteps - step
    {
      var outcome;
      outcome, usage, sent :=
        RunStep(w, task, store, budget, agentRunID, startStep, step, msgs, usage, sent, completions);
      if outcome.OutOfBudget? {
        finalStop := OverBudget;
        stepsRun := step - startStep;
        break;
      }
      if outcome.LlmFailed? {
        result := Failure(outcome.error);
        DoneIsDone(w, task, Here(store, budget, Returned(result), startStep, sent, completions));
        return;
      }
      completions := completions + 1;
      msgs := outcome.msgs;
      PersistStep(w, task, store, budget, agentRunID, startStep, step, msgs, usage,
                  outcome.reply, outcome.finding, sent, completions);
      stepsRun := step - startStep + 1;
      if outcome.finding.Some? {
        result := Finish(w, task, store, budget, agentRunID, startStep, Submitted, stepsRun,
                         outcome.finding, usage, sent, completions);
        DoneIsDone(w, task, Here(store, budget, Returned(result), startStep, sent, completions));
        return;
      }
      step := step + 1;
    }
    if finalStop == MaxSteps {
      stepsRun := w.maxSteps - startStep;
      LimitIsTheEnd(w, task, Here(store, budget, AtHead(agentRunID, startStep, step, msgs, usage),
                                  startStep, sent, completions));
    }
    result := Finish(w, task, store, budget, agentRunID, startStep, finalStop, stepsRun, None, usage, sent, completions);
    DoneIsDone(w, task, Here(store, budget, Returned(result), startStep, sent, completions));
  }

  /** The whole of `Run`: from the rows and the budget it finds, it returns, writes
      and sends exactly what the undisturbed machine does. */
  method Run(w: World, task: Task, store: AgentStore?, budget: Budget?, newID: string)
    returns (result: Result<RunResult>, ghost sent: seq<Sent>)
    requires w.durable <==> store != null
    requires budget != null ==> budget.limits == w.limits
    requires store != null ==> store.Valid()
    modifies store, budget
    ensures store != null ==> store.Valid()
    ensures var begin := FRESH.(rows := old(RowsOf(store)));
            var end := Drive(w, task, Start(w, task, begin, newID, old(LedgerOf(budget))));
            && end.proc == Returned(result)
            && end.rows == RowsOf(store) && end.budget == LedgerOf(budget) && end.sent == sent
  {
    hide Prepare, Tick, Distance, Drive, Sane, IsOrdered, LastIndex, IsLastIndex, AgentStore.Valid;
    ghost var begin := Start(w, task, FRESH.(rows := RowsOf(store)), newID, LedgerOf(budget));
    var msgs := InitialMessages(w, task);
    var startStep := 0;
    var agentRunID := newID;
    if store != null {
      var run, steps := store.LoadAgentRun();
      if run.Some? && run.value.status == Ended(Submitted) {
        sent := [];
        var finding := w.storedFinding(task.clauseId);
        if finding.Failure? {
          result := Failure("get stored finding: " + finding.error);
        } else {
          result := Success(RunResult(Some(finding.value), run.value.stepCount, Submitted, Usage(run.value.usedTokens, 0)));
        }
        assert Here(store, budget, Returned(result), 0, sent, 0) == begin;
        DoneIsDone(w, task, begin);
        return;
      }
      if run.Some? && run.value.status == Running {
        agentRunID := run.value.id;
        LastOfOrdered(store.Contents().steps, steps);
        if |steps| > 0 {
          var last := steps[|steps| - 1];
          msgs := last.1.messages;
          startStep := last.0 + 1;
        }
        if budget != null {
          budget.RestoreTokens(run.value.usedTokens, run.value.usedCost);
        }
      } else if run.None? {
        // The clause has no run, so the id is not taken.
        var _ := store.StartAgentRun(agentRunID);
      }
    }
    assert Here(store, budget, AtHead(agentRunID, startStep, startStep, msgs, Usage(0, 0)), startStep, [], 0) == begin;
    result, sent := RunLoop(w, task, store, budget, agentRunID, startStep, msgs);
  }

  lemma LastOfOrdered(steps: map<int, Snapshot>, ordered: seq<(int, Snapshot)>)
    requires IsOrdered(steps, ordered)
    ensures |steps| > 0 <==> |ordered| > 0
    ensures |steps| > 0 ==> LastIndex(steps) in steps
                            && ordered[|ordered| - 1] == (LastIndex(steps), steps[LastIndex(steps)])
  {
    if |ordered| > 0 {
      assert ordered[0].0 in steps.Keys;
    }
    if |steps| > 0 {
      var k := LastIndex(steps);
      var i :| 0 <= i < |ordered| && ordered[i].0 == k;
    }
  }
}
