/** Which requests force the submission, and what that buys: a model that obeys is never
    stopped by the step limit. */
module AgentForced {
  import opened Wrappers
  import opened Domain
  import opened Llm
  import opened AgentSpec
  import opened AgentRecovery
  import opened AgentTurns
  import opened Budgets
  import AgentBudget

  // ------------------------------------------------------- what is asked for

  /** The submission is forced exactly in the last step a run may make, and every reply
      may have 1024 tokens. */
  ghost predicate IsFramed(w: World, sent: Sent) {
    && sent.request.maxTokens == 1024
    && (sent.request.forceToolName == "submit_finding" <==> sent.step == w.maxSteps - 1)
    && (sent.request.forceToolName == "" <==> sent.step != w.maxSteps - 1)
  }

  ghost predicate AllFramed(w: World, s: State) {
    forall i :: 0 <= i < |s.sent| ==> IsFramed(w, s.sent[i])
  }

  lemma FramedTick(w: World, task: Task, s: State)
    requires AllFramed(w, s) && Working(s.proc)
    ensures AllFramed(w, Tick(w, task, s))
  {
    hide Prepare, TakeTurn;
  }

  /** Over every schedule every request is so framed. */
  lemma {:induction false} AlwaysFramed(w: World, task: Task, es: seq<Event>)
    requires Legal(w, task, es)
    ensures AllFramed(w, Exec(w, task, es))
    decreases |es|
  {
    if es != [] {
      var s, e := Exec(w, task, es[..|es| - 1]), es[|es| - 1];
      AlwaysFramed(w, task, es[..|es| - 1]);
      if e.Step? {
        FramedTick(w, task, s);
      }
      hide AllFramed, Tick;
      assert !e.Step? ==> Exec(w, task, es).sent == s.sent;
      SameSentFramed(w, s, Exec(w, task, es));
    }
  }

  lemma SameSentFramed(w: World, s: State, t: State)
    requires AllFramed(w, s)
    ensures t.sent == s.sent ==> AllFramed(w, t)
  {
  }

  /** And so it is with a budget, and when a clause is run again after its end. */
  lemma {:induction false} AlwaysFramedWithBudget(w: World, task: Task, es: seq<Event>)
    requires AgentBudget.Lawful(w, task, es)
    ensures AllFramed(w, AgentBudget.Balance(w, task, es).s)
    decreases |es|
  {
    if es != [] {
      var a, e := AgentBudget.Balance(w, task, es[..|es| - 1]), es[|es| - 1];
      AlwaysFramedWithBudget(w, task, es[..|es| - 1]);
      if e.Step? {
        FramedTick(w, task, a.s);
      }
      hide AllFramed, Tick;
      var t := AgentBudget.Balance(w, task, es).s;
      assert !e.Step? ==> t.sent == a.s.sent;
      SameSentFramed(w, a.s, t);
    }
  }

  // ------------------------------------------------------ a model that obeys

  /** Whenever the model answers a request that forces the submission, it submits. */
  ghost predicate Obeys(w: World, task: Task) {
    forall r: Request {:trigger w.complete(r)} :: r.forceToolName == "submit_finding" && w.complete(r).Success? ==>
      exists i :: 0 <= i < |w.complete(r).value.toolCalls| && IsSubmission(w, task, w.complete(r).value.toolCalls[i])
  }

  lemma LastStepSubmits(w: World, task: Task, step: int, msgs: seq<Message>)
    requires Obeys(w, task) && step == w.maxSteps - 1 && w.complete(RequestFor(w, step, msgs)).Success?
    ensures TakeTurn(w, task, step, msgs, w.complete(RequestFor(w, step, msgs)).value).finding.Some?
  {
    var resp := w.complete(RequestFor(w, step, msgs)).value;
    SubmitsIff(w, task, step, msgs, resp);
  }

  /** A process that has not reached the limit, and will not without a submission. */
  ghost predicate BelowLimit(w: World, p: Proc) {
    match p
    case AtHead(_, _, step, _, _) => step < w.maxSteps
    case AtComplete(_, _, step, _, _) => step < w.maxSteps
    case AtAppend(_, _, step, _, _, _, finding) => finding.Some? || step + 1 < w.maxSteps
    case AtFinish(_, _, _, _, stop, _) => !stop.MaxSteps?
    case Down => true
    case Returned(result) => result.Success? ==> !result.value.stop.MaxSteps?
  }

  lemma BelowLimitTick(w: World, task: Task, s: State)
    requires Obeys(w, task) && Working(s.proc) && BelowLimit(w, s.proc)
    ensures BelowLimit(w, Tick(w, task, s).proc)
  {
    if s.proc.AtComplete? && s.proc.step == w.maxSteps - 1
       && w.complete(RequestFor(w, s.proc.step, s.proc.msgs)).Success? {
      LastStepSubmits(w, task, s.proc.step, s.proc.msgs);
    }
    hide Prepare, TakeTurn, Obeys;
  }

  /** A process that begins below the step limit is not stopped by it, with a store or
      without, with a budget or without, at its first start or when it resumes. */
  lemma {:induction false} ObedientProcess(w: World, task: Task, s: State)
    requires Obeys(w, task) && Sane(w, s.proc) && BelowLimit(w, s.proc)
    ensures BelowLimit(w, Drive(w, task, s).proc)
    decreases Distance(w, s.proc)
  {
    if Working(s.proc) {
      BelowLimitTick(w, task, s);
      hide BelowLimit, Obeys, Tick;
      TickProgress(w, task, s);
      ObedientProcess(w, task, Tick(w, task, s));
    }
  }

  /** Over every schedule, a model that obeys is stopped by the step limit only if some
      interruption fell between storing a submitting step and recording the submission. */
  lemma ObedientRun(w: World, task: Task, es: seq<Event>)
    requires w.durable && w.maxSteps > 0 && Obeys(w, task) && Legal(w, task, es)
    requires Exec(w, task, es).proc.Returned? && Exec(w, task, es).proc.result.Success?
    ensures Exec(w, task, es).proc.result.value.stop.MaxSteps? ==> !Spared(w, task, es)
  {
    var s := Exec(w, task, es);
    if s.proc.result.value.stop.MaxSteps? && Spared(w, task, es) {
      InvHolds(w, task, es);
      EndsBySubmission(w, task, |s.rows.steps|, s.proc.result.value.finding);
      assert false;
    }
  }

  lemma EndsBySubmission(w: World, task: Task, n: nat, f: Option<ClauseAnalysis>)
    requires w.maxSteps > 0 && Obeys(w, task)
    ensures !EndsAt(w, task, n, MaxSteps, f)
  {
    if EndsAt(w, task, n, MaxSteps, f) {
      HistoryPrefix(w, task, n - 1, n);
      var h := History(w, task, n - 1).value;
      LastStepSubmits(w, task, n - 1, Prepare(w, h));
      assert false;
    }
  }
}
