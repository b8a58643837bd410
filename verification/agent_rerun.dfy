/** Running a clause again after its run has ended: when that costs anything. */
module AgentRerun {
  import opened Wrappers
  import opened Llm
  import opened AgentSpec
  import opened AgentRecovery
  import opened AgentCrashes
  import opened Budgets

  // ---------------------------------------------------------------- re-billing

  lemma {:induction false} DriveOnlySends(w: World, task: Task, s: State)
    requires Sane(w, s.proc)
    ensures s.sent <= Drive(w, task, s).sent
    decreases Distance(w, s.proc)
  {
    hide Prepare, TakeTurn;
    if Working(s.proc) {
      DriveOnlySends(w, task, Tick(w, task, s));
    }
  }

  ghost predicate StopsAtOnce(w: World, s: State) {
    w.maxSteps <= 0 || (s.budget.Some? && IsExceeded(w.limits, s.budget.value))
  }

  /** A process at step 0 asks its first question unless it may make no step. */
  lemma FirstQuestion(w: World, task: Task, s: State)
    requires s.proc.AtHead? && s.proc.step == 0
    ensures var end := Drive(w, task, s);
            && (|end.sent| > |s.sent| <==> !StopsAtOnce(w, s))
            && (|end.sent| > |s.sent| ==>
                  end.sent[|s.sent|] == Sent(0, RequestOf(w, 0, s.proc.msgs)))
  {
    hide Prepare, TakeTurn;
    var t := Tick(w, task, s);
    var u := Tick(w, task, t);
    assert Drive(w, task, s) == Drive(w, task, t) == Drive(w, task, u);
    if !StopsAtOnce(w, s) {
      DriveOnlySends(w, task, u);
      assert u.sent == s.sent + [Sent(0, RequestOf(w, 0, s.proc.msgs))];
    }
  }

  /** Running a clause again whose run has ended asks the provider again if and only if
      the run did not submit, a step may be made and the budget is not exceeded. The
      first question is then the one the run began with. */
  lemma RerunBillsIff(w: World, task: Task, s: State, id: string, budget: Option<Ledger>)
    requires w.durable && s.rows.run.Some? && s.rows.run.value.status.Ended?
    ensures var end := Drive(w, task, Start(w, task, s, id, budget));
            && (|end.sent| > |s.sent| <==>
                  && !s.rows.run.value.status.stop.Submitted? && w.maxSteps > 0
                  && !(budget.Some? && IsExceeded(w.limits, budget.value)))
            && (|end.sent| > |s.sent| ==>
                  end.sent[|s.sent|] == Sent(0, RequestOf(w, 0, InitialMessages(w, task))))
  {
    hide Prepare, TakeTurn;
    var begun := Start(w, task, s, id, budget);
    if !s.rows.run.value.status.stop.Submitted? {
      FirstQuestion(w, task, begun);
    }
  }

  /** A run that ended in `max_steps` or `budget` is not terminal: asked for again, it
      starts over at step 0 under an id that was never inserted, and nothing it does
      is recorded. */
  lemma RerunLeavesNoTrace(w: World, task: Task, s: State, id: string, budget: Option<Ledger>)
    requires w.durable && s.rows.run.Some? && s.rows.run.value.id != id
    requires s.rows.run.value.status == Ended(MaxSteps) || s.rows.run.value.status == Ended(OverBudget)
    ensures var begun := Start(w, task, s, id, budget);
            && begun.proc == AtHead(id, 0, 0, InitialMessages(w, task), Usage(0, 0))
            && Drive(w, task, begun).proc.Returned? && Drive(w, task, begun).rows == s.rows
  {
    DetachedDrive(w, task, Start(w, task, s, id, budget), id);
  }

  ghost function ProcId(p: Proc): Option<string> {
    match p
    case AtHead(id, _, _, _, _) => Some(id)
    case AtComplete(id, _, _, _, _) => Some(id)
    case AtAppend(id, _, _, _, _, _, _) => Some(id)
    case AtFinish(id, _, _, _, _, _) => Some(id)
    case Down => None
    case Returned(_) => None
  }

  lemma {:induction false} DetachedDrive(w: World, task: Task, s: State, id: string)
    requires Sane(w, s.proc) && Working(s.proc) && ProcId(s.proc) == Some(id)
    requires s.rows.run.Some? && s.rows.run.value.id != id
    ensures Drive(w, task, s).rows == s.rows && Drive(w, task, s).proc.Returned?
    decreases Distance(w, s.proc)
  {
    hide Prepare, TakeTurn;
    var t := Tick(w, task, s);
    if Working(t.proc) {
      DetachedDrive(w, task, t, id);
    }
  }

  /** A model that only talks, asked once. */
  function TalkingWorld(): World {
    World(1, true, None, Limits(0, 0, 0), _ => Success(Response("well", [], 100, 10, "", "")),
          _ => Failure(""), _ => Failure(""), s => s, t => "task", _ => Failure(""))
  }

  /** Such a run ends at the step limit after one question, and running the clause again
      asks the same question again. */
  lemma ARunIsBilledTwice(task: Task, id: string) returns (es: seq<Event>)
    ensures var w := TalkingWorld();
            && w.durable && Legal(w, task, es) && Exec(w, task, es).proc.Returned?
            && Exec(w, task, es).rows.run.Some? && Exec(w, task, es).rows.run.value.status == Ended(MaxSteps)
            && |Exec(w, task, es).sent| == 1
            && var again := Drive(w, task, Start(w, task, Exec(w, task, es), id, None));
               |again.sent| >= 2 && again.sent[1] == again.sent[0]
  {
    var w := TalkingWorld();
    es := [];
    assert Legal(w, task, es) && Exec(w, task, es) == FRESH;
    hide Legal, Spared, Exec;
    Onward(w, task, es, Begin("run-1"));
    es := es + [Begin("run-1")];
    assert Exec(w, task, es).proc.AtHead?;
    Onward(w, task, es, Step);
    es := es + [Step];
    Onward(w, task, es, Step);
    es := es + [Step];
    assert Exec(w, task, es).sent == [Sent(0, RequestOf(w, 0, InitialMessages(w, task)))];
    Onward(w, task, es, Step);
    es := es + [Step];
    Onward(w, task, es, Step);
    es := es + [Step];
    Onward(w, task, es, Step);
    es := es + [Step];
    var s := Exec(w, task, es);
    RerunBillsIff(w, task, s, id, None);
    DriveOnlySends(w, task, Start(w, task, s, id, None));
  }
}
