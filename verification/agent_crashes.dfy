/** Schedules that interrupt a process anywhere, also between persisting a submitting
    step and recording the submission: what still holds, and exactly when a crash is
    harmless. */
module AgentCrashes {
  import opened Wrappers
  import opened Domain
  import opened Llm
  import opened AgentSpec
  import opened AgentRecovery
  import opened AgentHistory
  import opened Budgets
  import opened Pairing

  // ------------------------------------------------ what any schedule keeps

  ghost predicate FindingOk(task: Task, stop: Stop, finding: Option<ClauseAnalysis>) {
    (finding.Some? <==> stop.Submitted?) && (finding.Some? ==> IsComplete(task, finding.value))
  }

  /** Rows and process fit together, whatever the rows hold. */
  ghost predicate Tidy(w: World, task: Task, s: State) {
    var n := |s.rows.steps|;
    && s.budget.None? && Dense(s.rows.steps) && n <= Limit(w)
    && (s.rows.run.None? ==> n == 0)
    && s.completions <= n + (if s.proc.AtAppend? then 1 else 0) + s.interruptions
    && match s.proc
       case Down => Resumable(s.rows)
       case AtHead(id, _, step, _, _) => Attached(s.rows, id) && step == n
       case AtComplete(id, _, step, _, _) => Attached(s.rows, id) && step == n < Limit(w)
       case AtAppend(id, _, step, _, _, _, finding) =>
         && Attached(s.rows, id) && step == n < Limit(w)
         && (finding.Some? ==> IsComplete(task, finding.value))
       case AtFinish(id, _, _, _, stop, finding) => Attached(s.rows, id) && FindingOk(task, stop, finding)
       case Returned(Success(r)) =>
         && s.rows.run.Some? && s.rows.run.value.status == Ended(r.stop) && FindingOk(task, r.stop, r.finding)
         && s.rows.run.value.stepCount == r.steps && s.rows.run.value.usedTokens == 0
       case Returned(Failure(_)) => Resumable(s.rows)
  }

  lemma TidyBegin(w: World, task: Task, s: State, id: string)
    requires w.durable && Tidy(w, task, s) && Allowed(s, Begin(id))
    ensures Tidy(w, task, Start(w, task, s, id, None))
  {
    if s.rows.run.Some? && |s.rows.steps| > 0 {
      ResumesAtEnd(w, task, s, id);
    }
  }

  lemma TidyAppend(w: World, task: Task, s: State)
    requires Tidy(w, task, s) && s.proc.AtAppend?
    ensures Tidy(w, task, Tick(w, task, s))
  {
    hide IsComplete, Prepare, TakeTurn;
    DenseGrows(s.rows.steps, AgentSpec.Snapshot(s.proc.msgs, s.proc.reply.input, s.proc.reply.output));
  }

  lemma TidyAsk(w: World, task: Task, s: State)
    requires Tidy(w, task, s) && s.proc.AtComplete?
    ensures Tidy(w, task, Tick(w, task, s))
  {
    var request := RequestFor(w, s.proc.step, s.proc.msgs);
    if w.complete(request).Success? {
      TurnFindingComplete(w, task, s.proc.step, s.proc.msgs, w.complete(request).value);
    }
    hide TakeTurn, IsComplete;
  }

  lemma TidyTick(w: World, task: Task, s: State)
    requires Tidy(w, task, s) && Working(s.proc)
    ensures Tidy(w, task, Tick(w, task, s))
  {
    match s.proc
    case AtComplete(_, _, _, _, _) => TidyAsk(w, task, s);
    case AtAppend(_, _, _, _, _, _, _) => TidyAppend(w, task, s);
    case _ =>
      hide Prepare, IsComplete;
  }

  lemma {:induction false} AlwaysTidy(w: World, task: Task, es: seq<Event>)
    requires w.durable && Legal(w, task, es)
    ensures Tidy(w, task, Exec(w, task, es))
    decreases |es|
  {
    if es != [] {
      var s := Exec(w, task, es[..|es| - 1]);
      AlwaysTidy(w, task, es[..|es| - 1]);
      match es[|es| - 1]
      case Begin(id) => TidyBegin(w, task, s, id);
      case Step => TidyTick(w, task, s);
      case Interrupt =>
    }
  }

  /** Over every schedule persisted step indices are 0..n-1 with n at most the step
      limit, and every completion beyond those n was paid for by an interruption. */
  lemma RepeatedWorkBounded(w: World, task: Task, es: seq<Event>)
    requires w.durable && Legal(w, task, es)
    ensures var s := Exec(w, task, es);
            && (forall k :: k in s.rows.steps <==> 0 <= k < |s.rows.steps|)
            && |s.rows.steps| <= Limit(w)
            && s.completions <= |s.rows.steps| + (if s.proc.AtAppend? then 1 else 0) + s.interruptions
            && s.completions <= Limit(w) + s.interruptions
  {
    AlwaysTidy(w, task, es);
  }

  /** However a run was interrupted, it returns a finding exactly when it stopped by
      submitting, and that finding is complete. */
  lemma ReturnedFindingComplete(w: World, task: Task, es: seq<Event>)
    requires w.durable && Legal(w, task, es)
    requires Exec(w, task, es).proc.Returned? && Exec(w, task, es).proc.result.Success?
    ensures var r := Exec(w, task, es).proc.result.value;
            && (r.finding.Some? <==> r.stop.Submitted?)
            && (r.finding.Some? ==> IsComplete(task, r.finding.value))
  {
    AlwaysTidy(w, task, es);
  }

  // ------------------------------------------------------- after the window

  /** The run that should have ended after `m` steps has been taken further, or is
      ending without its finding. */
  ghost predicate PastEnd(w: World, task: Task, m: nat, s: State) {
    && Tidy(w, task, s) && s.rows.run.Some? && 1 <= m <= |s.rows.steps|
    && (s.proc.AtFinish? ==> |s.rows.steps| > m || s.proc.stop.MaxSteps?)
    && (s.proc.Returned? && s.proc.result.Success? ==> |s.rows.steps| > m || s.proc.result.value.stop.MaxSteps?)
  }

  lemma PastEndBegin(w: World, task: Task, m: nat, s: State, id: string)
    requires w.durable && PastEnd(w, task, m, s) && Allowed(s, Begin(id))
    ensures PastEnd(w, task, m, Start(w, task, s, id, None))
  {
    TidyBegin(w, task, s, id);
    ResumesAtEnd(w, task, s, id);
    hide Tidy;
  }

  lemma PastEndTick(w: World, task: Task, m: nat, s: State)
    requires PastEnd(w, task, m, s) && Working(s.proc)
    ensures PastEnd(w, task, m, Tick(w, task, s))
  {
    TidyTick(w, task, s);
    if s.proc.AtAppend? {
      DenseGrows(s.rows.steps, AgentSpec.Snapshot(s.proc.msgs, s.proc.reply.input, s.proc.reply.output));
    }
    hide Prepare, TakeTurn, IsComplete;
  }

  /** A crash in the window leaves the run past its end. */
  lemma WindowIsTheEnd(w: World, task: Task, s: State)
    requires Inv(w, task, s) && Tidy(w, task, s) && InSubmitWindow(s.proc)
    ensures EndsAt(w, task, |s.rows.steps|, Submitted, s.proc.finding)
    ensures PastEnd(w, task, |s.rows.steps|, Killed(s))
  {
    hide History, PlayedAt;
  }

  lemma {:induction false} UnsparedIsPastEnd(w: World, task: Task, es: seq<Event>)
    returns (m: nat, f: Option<ClauseAnalysis>)
    requires w.durable && Legal(w, task, es) && !Spared(w, task, es)
    ensures EndsAt(w, task, m, Submitted, f) && PastEnd(w, task, m, Exec(w, task, es))
    decreases |es|
  {
    var front, e := es[..|es| - 1], es[|es| - 1];
    var s := Exec(w, task, front);
    AlwaysTidy(w, task, front);
    if Spared(w, task, front) {
      InvHolds(w, task, front);
      WindowIsTheEnd(w, task, s);
      m, f := |s.rows.steps|, s.proc.finding;
    } else {
      m, f := UnsparedIsPastEnd(w, task, front);
      hide EndsAt;
      match e
      case Begin(id) => PastEndBegin(w, task, m, s, id);
      case Step => PastEndTick(w, task, m, s);
      case Interrupt =>
    }
  }

  lemma {:induction false} DrivePastEnd(w: World, task: Task, m: nat, s: State)
    requires PastEnd(w, task, m, s) && Sane(w, s.proc)
    ensures PastEnd(w, task, m, Drive(w, task, s))
    decreases Distance(w, s.proc)
  {
    if Working(s.proc) {
      PastEndTick(w, task, m, s);
      hide PastEnd;
      DrivePastEnd(w, task, m, Tick(w, task, s));
    }
  }

  /** What is past the end of the run is not the run. */
  lemma PastEndDiffers(w: World, task: Task, m: nat, f: Option<ClauseAnalysis>, s: State, id: string)
    requires w.durable && EndsAt(w, task, m, Submitted, f) && PastEnd(w, task, m, s)
    ensures !SameRun(s, Uninterrupted(w, task, id))
  {
    var u := Uninterrupted(w, task, id);
    UninterruptedEnds(w, task, id);
    if u.proc.result.Success? {
      EndedWhere(w, task, u);
      EndIsUnique(w, task, m, Submitted, f,
                  |u.rows.steps|, u.proc.result.value.stop, u.proc.result.value.finding);
    }
  }

  lemma EndedWhere(w: World, task: Task, u: State)
    requires Inv(w, task, u) && u.proc.Returned? && u.proc.result.Success?
    ensures EndsAt(w, task, |u.rows.steps|, u.proc.result.value.stop, u.proc.result.value.finding)
  {
    hide History, PlayedAt;
  }

  // ----------------------------------------------------------- main results

  /** A crashed and restarted run that returns a result is the run nobody interrupted if
      and only if no interruption fell between persisting a submitting step and
      recording the submission. */
  lemma RefinesIffSpared(w: World, task: Task, es: seq<Event>, id: string)
    requires w.durable && Legal(w, task, es)
    requires Exec(w, task, es).proc.Returned? && Exec(w, task, es).proc.result.Success?
    ensures SameRun(Exec(w, task, es), Uninterrupted(w, task, id)) <==> Spared(w, task, es)
  {
    if Spared(w, task, es) {
      CrashedRunsRefine(w, task, es, id);
    } else {
      var m, f := UnsparedIsPastEnd(w, task, es);
      PastEndDiffers(w, task, m, f, Exec(w, task, es), id);
    }
  }

  /** Restarted from `s`, a process continues behind the persisted submission. It never
      returns what the run would have: at the step limit it reports `max_steps`, and
      before that it goes on from a history whose submission is never answered. */
  ghost predicate LosesFinding(w: World, task: Task, s: State, resumed: State, id: string) {
    var n := |s.rows.steps|;
    && s.proc.AtFinish? && s.proc.finding.Some? && n >= 1 && n - 1 in s.rows.steps
    && resumed.proc.AtHead? && resumed.resumedAt == n
    && resumed.proc.msgs == s.rows.steps[n - 1].messages
    && !SameRun(Drive(w, task, resumed), Uninterrupted(w, task, id))
    && (n == Limit(w) ==>
          var end := Drive(w, task, resumed).proc;
          end.Returned? && end.result.Success?
          && end.result.value.stop == MaxSteps && end.result.value.finding == None)
    && (CleanUpTo(w, task, n - 1) ==> !Paired(resumed.proc.msgs))
  }

  /** A crash between persisting a submitting step and recording the submission loses
      the finding. */
  lemma SubmitWindowLosesFinding(w: World, task: Task, es: seq<Event>, id: string)
    requires w.durable && Legal(w, task, es) && Spared(w, task, es) && InSubmitWindow(Exec(w, task, es).proc)
    ensures LosesFinding(w, task, Exec(w, task, es),
                         Start(w, task, Killed(Exec(w, task, es)), id, None), id)
  {
    InvHolds(w, task, es);
    AlwaysTidy(w, task, es);
    WindowLoses(w, task, Exec(w, task, es), id);
  }

  lemma WindowLoses(w: World, task: Task, s: State, id: string)
    requires w.durable && Inv(w, task, s) && Tidy(w, task, s) && InSubmitWindow(s.proc)
    ensures LosesFinding(w, task, s, Start(w, task, Killed(s), id, None), id)
  {
    hide Play, History, Tidy, EndsAt, Drive;
    var n := |s.rows.steps|;
    SubmitWindow(w, task, s);
    WindowIsTheEnd(w, task, s);
    PastEndBegin(w, task, n, Killed(s), id);
    ResumesAtEnd(w, task, Killed(s), id);
    var resumed := EnterAt(Killed(s), s.rows.run.value.id, n, s.rows.steps[n - 1].messages, None);
    DrivePastEnd(w, task, n, resumed);
    PastEndDiffers(w, task, n, s.proc.finding, Drive(w, task, resumed), id);
    AtLimitLoses(w, task, n, resumed);
    SubmissionUnpaired(w, task, n - 1);
  }

  lemma AtLimitLoses(w: World, task: Task, n: nat, resumed: State)
    requires n >= 1 && resumed.proc.AtHead? && resumed.proc.step == n
    ensures n == Limit(w) ==>
              var end := Drive(w, task, resumed).proc;
              && end.Returned? && end.result.Success?
              && end.result.value.stop == MaxSteps && end.result.value.finding == None
  {
    if n == Limit(w) {
      AtLimitDrive(w, task, resumed);
    }
  }

  /** The last stored step is the submitting one, and the run is still running. */
  ghost predicate SubmissionStored(w: World, task: Task, s: State) {
    var n := |s.rows.steps|;
    && s.proc.AtFinish? && s.proc.finding.Some?
    && 1 <= n <= Limit(w) && Dense(s.rows.steps) && n - 1 in s.rows.steps
    && s.rows.run.Some? && s.rows.run.value.status.Running?
    && PlayedAt(w, task, n - 1).Some? && PlayedAt(w, task, n - 1).value.turn.finding.Some?
    && s.rows.steps[n - 1].messages == SnapshotAt(w, task, n - 1).messages
  }

  lemma SubmitWindow(w: World, task: Task, s: State)
    requires Inv(w, task, s) && InSubmitWindow(s.proc)
    ensures SubmissionStored(w, task, s)
  {
    hide PlayedAt, Genuine;
  }

  lemma AtLimitDrive(w: World, task: Task, s: State)
    requires s.proc.AtHead? && s.proc.step >= w.maxSteps
    ensures Drive(w, task, s).proc ==
            Returned(Success(RunResult(None, w.maxSteps - s.proc.start, MaxSteps, s.proc.usage)))
  {
    var t := Tick(w, task, s);
    assert Drive(w, task, s) == Drive(w, task, t);
  }

  // ---------------------------------------------------------------- a witness

  lemma Onward(w: World, task: Task, es: seq<Event>, e: Event)
    requires Legal(w, task, es) && Allowed(Exec(w, task, es), e)
    ensures Legal(w, task, es + [e]) && Exec(w, task, es + [e]) == Next(w, task, Exec(w, task, es), e)
    ensures Spared(w, task, es + [e]) <==>
            Spared(w, task, es) && !(e.Interrupt? && InSubmitWindow(Exec(w, task, es).proc))
  {
    assert (es + [e])[..|es|] == es;
  }

  /** A model that submits at once, asked at most `maxSteps` times. */
  function EagerWorld(maxSteps: int): World {
    World(maxSteps, true, None, Limits(0, 0, 0),
          _ => Success(Response("", [Submission()], 0, 0, "", "")),
          _ => Failure(""), _ => Success(SubmitArgs("high", "because", "", "change it")),
          s => s, t => "task", _ => Failure(""))
  }

  function Submission(): ToolCall { ToolCall("call-1", SUBMIT_FINDING, "{}") }

  /** Its first process, from the start to the window. */
  lemma EagerProcess(task: Task, maxSteps: nat, s: State) returns (t: State, u: State, v: State)
    requires maxSteps >= 1 && s == Start(EagerWorld(maxSteps), task, FRESH, "run-1", None)
    ensures var w := EagerWorld(maxSteps);
            && Working(s.proc) && t == Tick(w, task, s)
            && Working(t.proc) && u == Tick(w, task, t)
            && Working(u.proc) && v == Tick(w, task, u)
            && InSubmitWindow(v.proc) && |v.rows.steps| == 1
  {
    var w := EagerWorld(maxSteps);
    t := Tick(w, task, s);
    u := Tick(w, task, t);
    assert AnswerCalls(w, task, [Submission()]).finding.Some?;
    assert u.proc.AtAppend? && u.proc.finding.Some?;
    v := Tick(w, task, u);
  }

  /** The window is reached, by the first step of a run. */
  lemma WindowIsReached(task: Task, maxSteps: nat) returns (es: seq<Event>)
    requires maxSteps >= 1
    ensures var w := EagerWorld(maxSteps);
            && w.durable && Legal(w, task, es) && Spared(w, task, es) && InSubmitWindow(Exec(w, task, es).proc)
            && |Exec(w, task, es).rows.steps| == 1
  {
    var w := EagerWorld(maxSteps);
    es := [];
    assert Legal(w, task, es) && Spared(w, task, es) && Exec(w, task, es) == FRESH;
    assert w.durable;
    var t, u, v := EagerProcess(task, maxSteps, Start(w, task, FRESH, "run-1", None));
    hide Legal, Spared, Exec, Tick, Start, EagerWorld;
    Onward(w, task, es, Begin("run-1"));
    es := es + [Begin("run-1")];
    Onward(w, task, es, Step);
    es := es + [Step];
    Onward(w, task, es, Step);
    es := es + [Step];
    Onward(w, task, es, Step);
    es := es + [Step];
  }

  /** So a run is lost: interrupted there and started again with one step to make, it
      returns, and not as the run nobody interrupted does. */
  lemma ARunIsLost(task: Task, id: string) returns (es: seq<Event>)
    ensures var w := EagerWorld(1);
            && w.durable && Legal(w, task, es) && !Spared(w, task, es)
            && Exec(w, task, es).proc.Returned? && Exec(w, task, es).proc.result.Success?
            && Exec(w, task, es).proc.result.value.stop == MaxSteps
            && !SameRun(Exec(w, task, es), Uninterrupted(w, task, id))
  {
    hide Legal, Spared, Exec;
    var w := EagerWorld(1);
    es := WindowIsReached(task, 1);
    AlwaysTidy(w, task, es);
    Onward(w, task, es, Interrupt);
    es := es + [Interrupt];
    ResumesAtEnd(w, task, Exec(w, task, es), id);
    Onward(w, task, es, Begin(id));
    es := es + [Begin(id)];
    Onward(w, task, es, Step);
    es := es + [Step];
    Onward(w, task, es, Step);
    es := es + [Step];
    RefinesIffSpared(w, task, es, id);
  }
}
