/** What a run reports about itself: the usage it returns is what it recorded in the
    budget, the steps are the replies it got, and its row says so. */
module AgentAccounts {
  import opened Wrappers
  import opened AgentSpec
  import opened Budgets
  import Pricing

  /** What the budget holds beyond `given`, when `usage` has been used in `made` calls. */
  ghost predicate IsSpent(given: Option<Ledger>, now: Option<Ledger>, usage: Usage, made: int) {
    && (given.None? <==> now.None?)
    && (given.Some? ==>
          && now.value.input == given.value.input + usage.input
          && now.value.output == given.value.output + usage.output
          && now.value.tokens == given.value.tokens + usage.input + usage.output
          && now.value.steps == given.value.steps + made)
  }

  /** The row of the run says how it ended, and what its budget then held. */
  ghost predicate IsRecorded(id: string, r: RunResult, s: State) {
    s.rows.run == Some(RunRow(id, Ended(r.stop), r.steps,
                              if s.budget.Some? then s.budget.value.tokens else 0,
                              if s.budget.Some? then s.budget.value.cost else 0))
  }

  /** A run that started at step `start` and made `made` steps submitted a finding, or used
      up its steps, or ran out of budget before it had. */
  ghost predicate StopFits(w: World, start: int, made: int, stop: Stop, found: bool, now: Option<Ledger>) {
    && (stop.Submitted? <==> found)
    && (stop.MaxSteps? ==> start + made == w.maxSteps)
    && (stop.OverBudget? ==> start + made < w.maxSteps && now.Some? && IsExceeded(w.limits, now.value))
  }

  /** A process that came in at `start`, with `given` in its budget, after `before` replies
      of earlier ones. */
  ghost predicate Adds(w: World, id: string, start: int, given: Option<Ledger>, before: nat, s: State) {
    var made := s.completions - before;
    match s.proc
    case AtHead(i, from, step, _, usage) =>
      i == id && from == start && step <= w.maxSteps && made == step - start && IsSpent(given, s.budget, usage, made)
    case AtComplete(i, from, step, _, usage) =>
      i == id && from == start && step < w.maxSteps && made == step - start && IsSpent(given, s.budget, usage, made)
    case AtAppend(i, from, step, _, usage, _, _) =>
      i == id && from == start && step < w.maxSteps && made == step - start + 1 && IsSpent(given, s.budget, usage, made)
    case AtFinish(i, from, stepsRun, usage, stop, finding) =>
      && i == id && from == start && made == stepsRun && IsSpent(given, s.budget, usage, made)
      && StopFits(w, start, made, stop, finding.Some?, s.budget)
    case Returned(Success(r)) =>
      && made == r.steps && IsSpent(given, s.budget, r.usage, made)
      && StopFits(w, start, made, r.stop, r.finding.Some?, s.budget)
    case _ => true
  }

  lemma AddsTick(w: World, task: Task, id: string, start: int, given: Option<Ledger>, before: nat, s: State)
    requires Working(s.proc) && Adds(w, id, start, given, before, s)
    ensures Adds(w, id, start, given, before, Tick(w, task, s))
  {
    hide Prepare, TakeTurn, Pricing.Estimate, IsExceeded;
  }

  ghost predicate Belongs(id: string, s: State) {
    match s.proc
    case Returned(Success(r)) => IsRecorded(id, r, s)
    case _ => s.rows.run.Some? && s.rows.run.value.id == id
  }

  lemma BelongsTick(w: World, task: Task, id: string, start: int, given: Option<Ledger>, before: nat, s: State)
    requires Working(s.proc) && Adds(w, id, start, given, before, s) && Belongs(id, s)
    ensures Belongs(id, Tick(w, task, s))
  {
    hide Prepare, TakeTurn, Pricing.Estimate, IsExceeded, Recorded, IsSpent;
  }

  lemma {:induction false} DriveAdds(w: World, task: Task, id: string, start: int, given: Option<Ledger>,
                                     before: nat, s: State)
    requires Sane(w, s.proc) && Adds(w, id, start, given, before, s)
    ensures Adds(w, id, start, given, before, Drive(w, task, s))
    ensures Belongs(id, s) ==> Belongs(id, Drive(w, task, s))
    decreases Distance(w, s.proc)
  {
    if Working(s.proc) {
      AddsTick(w, task, id, start, given, before, s);
      if Belongs(id, s) {
        BelongsTick(w, task, id, start, given, before, s);
      }
      hide Adds, Belongs, Tick;
      TickProgress(w, task, s);
      DriveAdds(w, task, id, start, given, before, Tick(w, task, s));
    }
  }

  /** A process that returns a result of its own reports as usage exactly what it recorded
      in the budget, and as steps exactly the replies it got, which are also the calls the
      budget counts; it stopped for the reason it gives; and if the run has a row, the row
      holds that stop and those steps and what the budget held at the end. */
  lemma RunAccounts(w: World, task: Task, s: State)
    requires s.proc.AtHead? && s.proc.start == s.proc.step <= w.maxSteps && s.proc.usage == Usage(0, 0)
    ensures var end := Drive(w, task, s);
            end.proc.Returned? && end.proc.result.Success? ==>
              var r := end.proc.result.value;
              && r.steps == end.completions - s.completions
              && IsSpent(s.budget, end.budget, r.usage, r.steps)
              && StopFits(w, s.proc.start, r.steps, r.stop, r.finding.Some?, end.budget)
              && (s.rows.run.Some? && s.rows.run.value.id == s.proc.id ==> IsRecorded(s.proc.id, r, end))
  {
    hide Drive, IsRecorded;
    DriveAdds(w, task, s.proc.id, s.proc.start, s.budget, s.completions, s);
  }

  /** Run again after it was submitted, the run reports the steps it reported before, and as
      input tokens all the tokens its budget held at its end. */
  lemma ReplayReports(w: World, task: Task, s: State, id: string, budget: Option<Ledger>)
    requires s.proc.AtHead? && s.proc.start == s.proc.step <= w.maxSteps && s.proc.usage == Usage(0, 0)
    requires w.durable && s.rows.run.Some? && s.rows.run.value.id == s.proc.id
    requires var end := Drive(w, task, s).proc;
             end.Returned? && end.result.Success? && end.result.value.stop.Submitted?
    ensures var end := Drive(w, task, s);
            var r, again := end.proc.result.value, Start(w, task, end, id, budget).proc;
            && again.Returned? && (again.result.Success? <==> w.storedFinding(task.clauseId).Success?)
            && (again.result.Success? ==>
                  again.result.value ==
                  RunResult(Some(w.storedFinding(task.clauseId).value), r.steps, Submitted,
                            Usage(if end.budget.Some? then end.budget.value.tokens else 0, 0)))
  {
    RunAccounts(w, task, s);
    hide Drive;
  }
}
