/** The durable tool-use loop of agent/agent.go for one clause, as a small-step
    machine over the rows it keeps in agent_runs and agent_steps. The model, the
    tools, the JSON decoder, the prompt template and the analyses table are
    deterministic oracles. */
module AgentSpec {
  import opened Wrappers
  import opened Domain
  import opened Llm
  import opened Budgets
  import Compaction

  const SUBMIT_FINDING := "submit_finding"
  const STEP_MAX_TOKENS := 1024
  const NUDGE := "Use a tool, or call submit_finding to finish."
  const FINAL_NUDGE := "You MUST call submit_finding now."
  const LAST_TOOL_CALL := "This is your last tool call. Your next response MUST call submit_finding."

  datatype Task = Task(contractId: string, clauseId: string, clauseText: string)

  datatype SubmitArgs = SubmitArgs(
    riskLevel: string,
    explanation: string,
    ambiguousLanguage: string,
    recommendations: string)

  /** `quote` is Go's %q verb. */
  datatype World = World(
    maxSteps: int,
    durable: bool,
    context: Option<Compaction.Config>,
    limits: Limits,
    complete: Request -> Result<Response>,
    dispatch: ToolCall -> Result<string>,
    decodeArgs: string -> Result<SubmitArgs>,
    quote: string -> string,
    render: Task -> string,
    storedFinding: string -> Result<ClauseAnalysis>)

  // ------------------------------------------------------------ one turn

  function InitialMessages(w: World, task: Task): seq<Message> { [UserMessage(w.render(task))] }

  function ParseAndValidateFinding(w: World, task: Task, raw: string): (r: Result<ClauseAnalysis>)
    ensures r.Success? <==>
              && w.decodeArgs(raw).Success?
              && var a := w.decodeArgs(raw).value;
                 a.riskLevel in {"high", "medium", "low"} && a.explanation != "" && a.recommendations != ""
    ensures r.Success? ==>
              && r.value.clauseId == task.clauseId && r.value.status == "analyzed"
              && r.value.riskLevel.Some? && r.value.explanation != "" && r.value.recommendations != ""
              && var a := w.decodeArgs(raw).value;
                 && (r.value.riskLevel == Some(High) <==> a.riskLevel == "high")
                 && (r.value.riskLevel == Some(Medium) <==> a.riskLevel == "medium")
                 && (r.value.riskLevel == Some(Low) <==> a.riskLevel == "low")
                 && r.value.explanation == a.explanation && r.value.recommendations == a.recommendations
                 && r.value.ambiguousLanguage == a.ambiguousLanguage
  {
    match w.decodeArgs(raw)
    case Failure(e) => Failure("unmarshal finding args: " + e)
    case Success(args) =>
      var risk := ParseRiskLevel(args.riskLevel);
      if risk.None? then Failure("risk_level: invalid risk level: " + w.quote(args.riskLevel))
      else if args.explanation == "" then Failure("explanation is required")
      else if args.recommendations == "" then Failure("recommendations is required")
      else Success(ClauseAnalysis(task.clauseId, risk, args.explanation, args.ambiguousLanguage,
                                  args.recommendations, "analyzed"))
  }

  datatype Answered = Answered(replies: seq<Message>, finding: Option<ClauseAnalysis>)

  function ToolReply(w: World, call: ToolCall): Message {
    match w.dispatch(call)
    case Success(text) => ToolResult(call.id, text)
    case Failure(e) => ToolResult(call.id, "tool error: " + e)
  }

  /** Calls are answered in order; a valid submission ends the turn on the spot, so
      it and the calls after it stay unanswered. */
  function AnswerCalls(w: World, task: Task, calls: seq<ToolCall>): Answered {
    if calls == [] then Answered([], None)
    else if calls[0].name == SUBMIT_FINDING then
      match ParseAndValidateFinding(w, task, calls[0].args)
      case Success(finding) => Answered([], Some(finding))
      case Failure(e) =>
        var rest := AnswerCalls(w, task, calls[1..]);
        Answered([ToolResult(calls[0].id, "invalid: " + e)] + rest.replies, rest.finding)
    else
      var rest := AnswerCalls(w, task, calls[1..]);
      Answered([ToolReply(w, calls[0])] + rest.replies, rest.finding)
  }

  function Prepare(w: World, msgs: seq<Message>): seq<Message> {
    match w.context
    case None => msgs
    case Some(c) => Compaction.Prepared(c, msgs)
  }

  predicate IsLast(w: World, step: int) { step == w.maxSteps - 1 }

  function RequestFor(w: World, step: int, prepared: seq<Message>): Request {
    Request(prepared, STEP_MAX_TOKENS, if IsLast(w, step) then SUBMIT_FINDING else "")
  }

  datatype Turn = Turn(history: seq<Message>, finding: Option<ClauseAnalysis>)

  function TakeTurn(w: World, task: Task, step: int, prepared: seq<Message>, resp: Response): Turn {
    var asked := prepared + [Message(Assistant, resp.content, resp.toolCalls, "")];
    if resp.toolCalls == [] then
      Turn(asked + [UserMessage(if IsLast(w, step) then FINAL_NUDGE else NUDGE)], None)
    else
      var answered := AnswerCalls(w, task, resp.toolCalls);
      if w.maxSteps - step - 1 == 1 && answered.finding.None?
      then Turn(asked + answered.replies + [UserMessage(LAST_TOOL_CALL)], None)
      else Turn(asked + answered.replies, answered.finding)
  }

  // -------------------------------------------------------- durable rows

  datatype Stop = Submitted | MaxSteps | OverBudget

  datatype RunStatus = Running | Ended(stop: Stop)

  datatype RunRow = RunRow(id: string, status: RunStatus, stepCount: int, usedTokens: nat, usedCost: nat)

  datatype Snapshot = Snapshot(messages: seq<Message>, input: nat, output: nat)

  /** What `LoadAgentRun` finds for one clause: its latest run and the steps of that run. */
  datatype Rows = Rows(run: Option<RunRow>, steps: map<int, Snapshot>)

  function Started(rows: Rows, id: string): Rows {
    Rows(Some(RunRow(id, Running, 0, 0, 0)), map[])
  }

  /** The upsert on (agent_run_id, step_index). A run id that was never inserted
      violates the foreign key, and the program ignores the error. */
  function Appended(rows: Rows, id: string, step: int, snapshot: Snapshot): Rows {
    if rows.run.Some? && rows.run.value.id == id then rows.(steps := rows.steps[step := snapshot]) else rows
  }

  function Finished(rows: Rows, id: string, stop: Stop, stepCount: int, tokens: nat, cost: nat): Rows {
    if rows.run.Some? && rows.run.value.id == id
    then rows.(run := Some(RunRow(id, Ended(stop), stepCount, tokens, cost))) else rows
  }

  ghost predicate IsLastIndex(steps: map<int, Snapshot>, k: int) {
    k in steps && forall j :: j in steps ==> j <= k
  }

  lemma {:induction false} LastIndexExists(keys: set<int>) returns (k: int)
    requires keys != {}
    ensures k in keys && forall j :: j in keys ==> j <= k
    decreases |keys|
  {
    assert (forall x: int :: x !in keys) ==> keys == {};
    var x: int :| x in keys;
    var rest := keys - {x};
    assert keys == rest + {x};
    k := x;
    if rest != {} {
      var top := LastIndexExists(rest);
      k := if k < top then top else k;
    }
  }

  /** The last row of `ORDER BY step_index`. */
  ghost function LastIndex(steps: map<int, Snapshot>): (k: int)
    requires |steps| > 0
    ensures IsLastIndex(steps, k)
  {
    assert exists k :: IsLastIndex(steps, k) by {
      assert |steps.Keys| > 0;
      var k := LastIndexExists(steps.Keys);
      assert IsLastIndex(steps, k);
    }
    var k :| IsLastIndex(steps, k);
    k
  }

  // -------------------------------------------------------------- machine

  datatype RunResult = RunResult(finding: Option<ClauseAnalysis>, steps: int, stop: Stop, usage: Usage)

  /** Where a process is inside `Run`; everything here is lost in a crash. */
  datatype Proc =
    | Down
    | AtHead(id: string, start: int, step: int, msgs: seq<Message>, usage: Usage)
    | AtComplete(id: string, start: int, step: int, msgs: seq<Message>, usage: Usage)
    | AtAppend(id: string, start: int, step: int, msgs: seq<Message>, usage: Usage,
               reply: Usage, finding: Option<ClauseAnalysis>)
    | AtFinish(id: string, start: int, stepsRun: int, usage: Usage, stop: Stop, finding: Option<ClauseAnalysis>)
    | Returned(result: Result<RunResult>)

  datatype Sent = Sent(step: int, request: Request)

  /** The first three fields are the program's; the others only record what happened:
      where the latest process came in, the provider traffic over the whole life of
      the clause, and how many processes died at work. */
  datatype State = State(
    rows: Rows,
    budget: Option<Ledger>,
    proc: Proc,
    resumedAt: int,
    sent: seq<Sent>,
    completions: nat,
    interruptions: nat)

  const FRESH := State(Rows(None, map[]), None, Down, 0, [], 0, 0)

  ghost predicate Working(p: Proc) { !p.Down? && !p.Returned? }

  ghost function EnterAt(s: State, id: string, step: int, msgs: seq<Message>, budget: Option<Ledger>): State {
    s.(proc := AtHead(id, step, step, msgs, Usage(0, 0)), resumedAt := step, budget := budget)
  }

  /** Lines 66-100: load the run, and start, resume or replay it. */
  ghost function Start(w: World, task: Task, s: State, id: string, budget: Option<Ledger>): State {
    var first := InitialMessages(w, task);
    if !w.durable then EnterAt(s, id, 0, first, budget)
    else
      match s.rows.run
      case None => EnterAt(s.(rows := Started(s.rows, id)), id, 0, first, budget)
      case Some(run) =>
        match run.status
        case Running =>
          var restored :=
            match budget
            case None => None
            case Some(l) => Some(Restored(l, run.usedTokens, run.usedCost));
          if |s.rows.steps| == 0 then EnterAt(s, run.id, 0, first, restored)
          else
            var last := LastIndex(s.rows.steps);
            EnterAt(s, run.id, last + 1, s.rows.steps[last].messages, restored)
        case Ended(stop) =>
          if stop.Submitted? then
            s.(proc := Returned(
                 match w.storedFinding(task.clauseId)
                 case Failure(e) => Failure("get stored finding: " + e)
                 case Success(f) => Success(RunResult(Some(f), run.stepCount, Submitted, Usage(run.usedTokens, 0)))),
               budget := budget)
          else EnterAt(s, id, 0, first, budget)
  }

  /** One step of a working process, up to the next durable write or provider call. */
  ghost function Tick(w: World, task: Task, s: State): State
    requires Working(s.proc)
  {
    match s.proc
    case AtHead(id, start, step, msgs, usage) =>
      if step >= w.maxSteps then
        s.(proc := AtFinish(id, start, w.maxSteps - start, usage, MaxSteps, None))
      else if s.budget.Some? && IsExceeded(w.limits, s.budget.value) then
        s.(proc := AtFinish(id, start, step - start, usage, OverBudget, None))
      else s.(proc := AtComplete(id, start, step, Prepare(w, msgs), usage))
    case AtComplete(id, start, step, msgs, usage) =>
      var request := RequestFor(w, step, msgs);
      var asked := s.(sent := s.sent + [Sent(step, request)]);
      (match w.complete(request)
       case Failure(e) => asked.(proc := Returned(Failure("llm complete: " + e)))
       case Success(resp) =>
         var turn := TakeTurn(w, task, step, msgs, resp);
         var total := Usage(usage.input + resp.inputTokens, usage.output + resp.outputTokens);
         asked.(proc := AtAppend(id, start, step, turn.history, total,
                                 Usage(resp.inputTokens, resp.outputTokens), turn.finding),
                budget := (match s.budget
                           case None => None
                           case Some(l) => Some(Recorded(l, resp.provider, resp.model,
                                                         resp.inputTokens, resp.outputTokens))),
                completions := s.completions + 1))
    case AtAppend(id, start, step, msgs, usage, reply, finding) =>
      var kept := s.(rows := Appended(s.rows, id, step, Snapshot(msgs, reply.input, reply.output)));
      if finding.Some? then kept.(proc := AtFinish(id, start, step - start + 1, usage, Submitted, finding))
      else kept.(proc := AtHead(id, start, step + 1, msgs, usage))
    case AtFinish(id, start, stepsRun, usage, stop, finding) =>
      var used := if s.budget.Some? then s.budget.value else EMPTY;
      s.(rows := Finished(s.rows, id, stop, stepsRun, used.tokens, used.cost),
         proc := Returned(Success(RunResult(finding, stepsRun, stop, usage))))
  }

  ghost function StepsLeft(w: World, step: int): nat {
    if step < w.maxSteps then w.maxSteps - step else 0
  }

  ghost function Distance(w: World, p: Proc): nat {
    match p
    case AtHead(_, _, step, _, _) => 4 * StepsLeft(w, step) + 3
    case AtComplete(_, _, step, _, _) => 4 * StepsLeft(w, step) + 2
    case AtAppend(_, _, step, _, _, _, _) => 4 * StepsLeft(w, step + 1) + 4
    case AtFinish(_, _, _, _, _, _) => 1
    case Down => 0
    case Returned(_) => 0
  }

  /** A process stays inside the loop only below the step limit. */
  ghost predicate Sane(w: World, p: Proc) {
    p.AtComplete? ==> p.step < w.maxSteps
  }

  lemma TickProgress(w: World, task: Task, s: State)
    requires Working(s.proc) && Sane(w, s.proc)
    ensures Sane(w, Tick(w, task, s).proc) && Distance(w, Tick(w, task, s).proc) < Distance(w, s.proc)
    ensures !Tick(w, task, s).proc.Down?
  {
    hide Prepare, TakeTurn;
  }

  /** Run the process to its return, undisturbed. */
  ghost function Drive(w: World, task: Task, s: State): (r: State)
    requires Sane(w, s.proc)
    ensures r.proc.Down? || r.proc.Returned?
    decreases Distance(w, s.proc)
  {
    if Working(s.proc) then
      TickProgress(w, task, s);
      Drive(w, task, Tick(w, task, s))
    else s
  }
}
