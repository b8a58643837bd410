/** What the machine of AgentSpec keeps over every schedule of crashes, transient
    provider errors and restarts. The model is deterministic and no budget is set. A
    schedule may interrupt a process anywhere; it is spared if it never does so between
    persisting a submitting step and recording that the run was submitted. */
module AgentRecovery {
  import opened Wrappers
  import opened Domain
  import opened Llm
  import opened AgentSpec
  import opened Budgets

  datatype Event = Begin(id: string) | Step | Interrupt

  ghost predicate InSubmitWindow(p: Proc) { p.AtFinish? && p.stop.Submitted? }

  ghost predicate Resumable(rows: Rows) { rows.run.Some? ==> rows.run.value.status.Running? }

  ghost predicate Allowed(s: State, e: Event) {
    match e
    case Begin(_) => !Working(s.proc) && Resumable(s.rows)
    case Step => Working(s.proc)
    case Interrupt => Working(s.proc)
  }

  /** A crash, a cancellation or a provider error: the process is gone, the rows stay. */
  ghost function Killed(s: State): State {
    s.(proc := Down, budget := None, interruptions := s.interruptions + 1)
  }

  ghost function Next(w: World, task: Task, s: State, e: Event): State
    requires Allowed(s, e)
  {
    match e
    case Begin(id) => Start(w, task, s, id, None)
    case Step => Tick(w, task, s)
    case Interrupt => Killed(s)
  }

  ghost predicate Legal(w: World, task: Task, es: seq<Event>)
    decreases |es|, 0
  {
    es == [] || (Legal(w, task, es[..|es| - 1]) && Allowed(Exec(w, task, es[..|es| - 1]), es[|es| - 1]))
  }

  /** The state after a schedule, from the first time the clause is touched. */
  ghost function Exec(w: World, task: Task, es: seq<Event>): State
    requires Legal(w, task, es)
    decreases |es|, 1
  {
    if es == [] then FRESH else Next(w, task, Exec(w, task, es[..|es| - 1]), es[|es| - 1])
  }

  /** No interruption fell into the window after a submitting step. */
  ghost predicate Spared(w: World, task: Task, es: seq<Event>)
    requires Legal(w, task, es)
    decreases |es|
  {
    es == [] ||
    (&& Spared(w, task, es[..|es| - 1])
     && !(es[|es| - 1].Interrupt? && InSubmitWindow(Exec(w, task, es[..|es| - 1]).proc)))
  }

  // ------------------------------------------- the run nobody interrupts

  ghost function Limit(w: World): nat { if w.maxSteps < 0 then 0 else w.maxSteps }

  datatype Played = Played(turn: Turn, reply: Usage)

  ghost function RequestOf(w: World, step: nat, history: seq<Message>): Request {
    RequestFor(w, step, Prepare(w, history))
  }

  ghost function Play(w: World, task: Task, step: nat, history: seq<Message>): Option<Played> {
    match w.complete(RequestOf(w, step, history))
    case Failure(_) => None
    case Success(resp) =>
      Some(Played(TakeTurn(w, task, step, Prepare(w, history), resp), Usage(resp.inputTokens, resp.outputTokens)))
  }

  /** A step that did not submit hands its history on. */
  ghost function HandedOn(p: Option<Played>): Option<seq<Message>> {
    if p.Some? && p.value.turn.finding.None? then Some(p.value.turn.history) else None
  }

  /** The history with which step `k` begins, if the run gets there. */
  ghost function History(w: World, task: Task, k: nat): Option<seq<Message>> {
    if k == 0 then Some(InitialMessages(w, task))
    else
      match History(w, task, k - 1)
      case None => None
      case Some(h) => HandedOn(Play(w, task, k - 1, h))
  }

  ghost function PlayedAt(w: World, task: Task, k: nat): Option<Played> {
    match History(w, task, k)
    case None => None
    case Some(h) => Play(w, task, k, h)
  }

  ghost function SnapshotAt(w: World, task: Task, k: nat): Snapshot
    requires PlayedAt(w, task, k).Some?
  {
    var p := PlayedAt(w, task, k).value;
    Snapshot(p.turn.history, p.reply.input, p.reply.output)
  }

  lemma {:induction false} HistoryPrefix(w: World, task: Task, j: nat, k: nat)
    requires History(w, task, k).Some? && j <= k
    ensures History(w, task, j).Some?
    ensures j < k ==> PlayedAt(w, task, j).Some? && PlayedAt(w, task, j).value.turn.finding.None?
  {
    hide Play;
    if j < k {
      HistoryPrefix(w, task, j, k - 1);
    }
  }

  /** The run ends after exactly `n` steps. */
  ghost predicate EndsAt(w: World, task: Task, n: nat, stop: Stop, finding: Option<ClauseAnalysis>) {
    match stop
    case MaxSteps => n == Limit(w) && History(w, task, n).Some? && finding.None?
    case Submitted => 1 <= n <= Limit(w) && finding.Some? && PlayedAt(w, task, n - 1).Some?
                      && PlayedAt(w, task, n - 1).value.turn.finding == finding
    case OverBudget => false
  }

  /** The provider refuses step `n` for good. */
  ghost predicate FailsAt(w: World, task: Task, n: nat) {
    n < Limit(w) && History(w, task, n).Some? && PlayedAt(w, task, n).None?
  }

  lemma EndIsUnique(w: World, task: Task, n: nat, stop: Stop, f: Option<ClauseAnalysis>,
                    n': nat, stop': Stop, f': Option<ClauseAnalysis>)
    requires EndsAt(w, task, n, stop, f) && EndsAt(w, task, n', stop', f')
    ensures n == n' && stop == stop' && f == f'
  {
    hide History, PlayedAt;
    EndNotBefore(w, task, n, stop, f, n', stop', f');
    EndNotBefore(w, task, n', stop', f', n, stop, f);
    if stop != stop' {
      SubmissionEnds(w, task, n, if stop.Submitted? then f else f');
    }
  }

  lemma EndNotBefore(w: World, task: Task, n: nat, stop: Stop, f: Option<ClauseAnalysis>,
                     n': nat, stop': Stop, f': Option<ClauseAnalysis>)
    requires EndsAt(w, task, n, stop, f) && EndsAt(w, task, n', stop', f')
    ensures n >= n'
  {
    hide History, Play;
    if n < n' && stop.Submitted? {
      SubmissionEnds(w, task, n, f);
      HistoryPrefix(w, task, n, if stop'.Submitted? then n' - 1 else n');
    }
  }

  /** Nothing follows a submission. */
  lemma SubmissionEnds(w: World, task: Task, n: nat, f: Option<ClauseAnalysis>)
    requires EndsAt(w, task, n, Submitted, f)
    ensures History(w, task, n).None?
  {
    hide Play;
  }

  /** A run that fails at step `m` is not at a later step. */
  lemma FailureEnds(w: World, task: Task, m: nat, k: nat)
    requires FailsAt(w, task, m) && k > m
    ensures History(w, task, k).None?
  {
    hide Play;
    if History(w, task, k).Some? {
      HistoryPrefix(w, task, m, k);
    }
  }

  lemma EndOrFailure(w: World, task: Task, n: nat, stop: Stop, f: Option<ClauseAnalysis>, m: nat)
    requires EndsAt(w, task, n, stop, f)
    ensures !FailsAt(w, task, m)
  {
    hide Play, History;
    if FailsAt(w, task, m) {
      if stop.MaxSteps? {
        FailureEnds(w, task, m, n);
      } else if m < n - 1 {
        FailureEnds(w, task, m, n - 1);
      } else if m >= n {
        SubmissionEnds(w, task, n, f);
        HistoryPrefix(w, task, n, m);
      }
    }
  }

  // ------------------------------------------------------------ invariant

  ghost predicate Dense(steps: map<int, Snapshot>) {
    forall k :: k in steps <==> 0 <= k < |steps|
  }

  /** The persisted steps are 0..n-1, each holding what the undisturbed run would
      have stored there. */
  ghost predicate RowsOk(w: World, task: Task, rows: Rows) {
    && Dense(rows.steps) && |rows.steps| <= Limit(w)
    && (rows.run.None? ==> |rows.steps| == 0)
    && forall k {:trigger rows.steps[k]} :: 0 <= k < |rows.steps| ==>
         PlayedAt(w, task, k).Some? && rows.steps[k] == SnapshotAt(w, task, k)
  }

  ghost predicate Attached(rows: Rows, id: string) {
    rows.run.Some? && rows.run.value.id == id && rows.run.value.status.Running?
  }

  ghost predicate ProcOk(w: World, task: Task, s: State) {
    var n := |s.rows.steps|;
    match s.proc
    case Down => Resumable(s.rows) && History(w, task, n).Some?
    case AtHead(id, start, step, msgs, _) =>
      && Attached(s.rows, id) && start == s.resumedAt && 0 <= start <= step == n
      && History(w, task, n) == Some(msgs)
    case AtComplete(id, start, step, msgs, _) =>
      && Attached(s.rows, id) && start == s.resumedAt && 0 <= start <= step == n < Limit(w)
      && History(w, task, n).Some? && msgs == Prepare(w, History(w, task, n).value)
    case AtAppend(id, start, step, msgs, _, reply, finding) =>
      && Attached(s.rows, id) && start == s.resumedAt && 0 <= start <= step == n < Limit(w)
      && PlayedAt(w, task, n) == Some(Played(Turn(msgs, finding), reply))
    case AtFinish(id, start, stepsRun, _, stop, finding) =>
      && Attached(s.rows, id) && start == s.resumedAt && start >= 0
      && EndsAt(w, task, n, stop, finding)
      && start + stepsRun == (if stop.MaxSteps? then w.maxSteps else n)
    case Returned(Success(res)) =>
      && s.rows.run.Some? && s.rows.run.value.status == Ended(res.stop)
      && EndsAt(w, task, n, res.stop, res.finding)
      && s.resumedAt >= 0
      && s.resumedAt + res.steps == (if res.stop.MaxSteps? then w.maxSteps else n)
      && s.rows.run.value.stepCount == res.steps
    case Returned(Failure(_)) => Resumable(s.rows) && FailsAt(w, task, n)
  }

  ghost predicate Genuine(w: World, task: Task, sent: Sent) {
    && 0 <= sent.step < Limit(w) && History(w, task, sent.step).Some?
    && sent.request == RequestOf(w, sent.step, History(w, task, sent.step).value)
  }

  ghost predicate Inv(w: World, task: Task, s: State) {
    && s.budget.None?
    && RowsOk(w, task, s.rows)
    && ProcOk(w, task, s)
    && (forall i :: 0 <= i < |s.sent| ==> Genuine(w, task, s.sent[i]))
    && s.completions <= |s.rows.steps| + (if s.proc.AtAppend? then 1 else 0) + s.interruptions
  }

  /** A restart of a running row continues behind its last step. */
  lemma ResumesAtEnd(w: World, task: Task, s: State, id: string)
    requires w.durable && Dense(s.rows.steps) && |s.rows.steps| > 0
    requires s.rows.run.Some? && s.rows.run.value.status.Running?
    ensures var n := |s.rows.steps|;
            n - 1 in s.rows.steps &&
            Start(w, task, s, id, None) == EnterAt(s, s.rows.run.value.id, n, s.rows.steps[n - 1].messages, None)
  {
    var n := |s.rows.steps|;
    assert n - 1 in s.rows.steps;
    assert LastIndex(s.rows.steps) == n - 1;
  }

  lemma EnterKeeps(w: World, task: Task, s: State, id: string, msgs: seq<Message>)
    requires RowsOk(w, task, s.rows) && Attached(s.rows, id)
    requires History(w, task, |s.rows.steps|) == Some(msgs)
    requires forall i :: 0 <= i < |s.sent| ==> Genuine(w, task, s.sent[i])
    requires s.completions <= |s.rows.steps| + s.interruptions
    ensures Inv(w, task, EnterAt(s, id, |s.rows.steps|, msgs, None))
  {
    hide Play, History, PlayedAt, Genuine;
  }

  /** Before a process begins, the rows say where the undisturbed run would be. */
  lemma RestingHistory(w: World, task: Task, s: State)
    requires Inv(w, task, s) && !Working(s.proc) && Resumable(s.rows)
    ensures var n := |s.rows.steps|;
            if n == 0 then History(w, task, n) == Some(InitialMessages(w, task))
            else n - 1 in s.rows.steps && History(w, task, n) == Some(s.rows.steps[n - 1].messages)
  {
    hide Play;
    var n := |s.rows.steps|;
    if n > 0 {
      assert s.rows.steps[n - 1] == SnapshotAt(w, task, n - 1);
    }
  }

  lemma BeginKeeps(w: World, task: Task, s: State, id: string)
    requires w.durable && Inv(w, task, s) && Allowed(s, Begin(id))
    ensures Inv(w, task, Next(w, task, s, Begin(id)))
  {
    RestingHistory(w, task, s);
    var first := InitialMessages(w, task);
    if s.rows.run.None? {
      EnterKeeps(w, task, s.(rows := Started(s.rows, id)), id, first);
    } else if |s.rows.steps| == 0 {
      EnterKeeps(w, task, s, s.rows.run.value.id, first);
    } else {
      ResumesAtEnd(w, task, s, id);
      EnterKeeps(w, task, s, s.rows.run.value.id, s.rows.steps[|s.rows.steps| - 1].messages);
    }
  }

  lemma StepKeeps(w: World, task: Task, s: State)
    requires Inv(w, task, s) && Working(s.proc)
    ensures Inv(w, task, Tick(w, task, s))
  {
    match s.proc
    case AtHead(_, _, _, _, _) => HeadKeeps(w, task, s);
    case AtComplete(_, _, step, msgs, _) => AskKeeps(w, task, s);
    case AtAppend(_, _, _, _, _, _, _) => AppendKeeps(w, task, s);
    case AtFinish(_, _, _, _, _, _) => FinishKeeps(w, task, s);
  }

  lemma RowsKept(w: World, task: Task, rows: Rows, rows': Rows)
    requires RowsOk(w, task, rows) && rows'.steps == rows.steps && rows'.run.Some?
    ensures RowsOk(w, task, rows')
  {
    hide PlayedAt, History;
    forall k | 0 <= k < |rows'.steps|
      ensures PlayedAt(w, task, k).Some? && rows'.steps[k] == SnapshotAt(w, task, k)
    {
      assert rows'.steps[k] == rows.steps[k];
    }
  }

  lemma HeadKeeps(w: World, task: Task, s: State)
    requires Inv(w, task, s) && s.proc.AtHead?
    ensures Inv(w, task, Tick(w, task, s))
  {
    hide History, PlayedAt, Prepare, RowsOk, Genuine;
    assert |s.rows.steps| <= Limit(w) by { RowsWithinLimit(w, task, s.rows); }
  }

  lemma RowsWithinLimit(w: World, task: Task, rows: Rows)
    requires RowsOk(w, task, rows)
    ensures |rows.steps| <= Limit(w)
  {
    hide PlayedAt, History;
  }

  lemma FinishKeeps(w: World, task: Task, s: State)
    requires Inv(w, task, s) && s.proc.AtFinish?
    ensures Inv(w, task, Tick(w, task, s))
  {
    hide History, PlayedAt, EndsAt, RowsOk, Genuine;
    RowsKept(w, task, s.rows, Tick(w, task, s).rows);
  }

  lemma AskKeeps(w: World, task: Task, s: State)
    requires Inv(w, task, s) && s.proc.AtComplete?
    ensures Inv(w, task, Tick(w, task, s))
  {
    hide History, Prepare, TakeTurn, RowsOk;
    var n := |s.rows.steps|;
    var asked := Sent(n, RequestOf(w, n, History(w, task, n).value));
    assert Genuine(w, task, asked);
    assert Tick(w, task, s).sent == s.sent + [asked];
  }

  lemma AppendKeeps(w: World, task: Task, s: State)
    requires Inv(w, task, s) && s.proc.AtAppend?
    ensures Inv(w, task, Tick(w, task, s))
  {
    hide Play, RowsOk, Genuine;
    var n := |s.rows.steps|;
    RowAdded(w, task, s.rows, Tick(w, task, s).rows);
    if s.proc.finding.Some? {
      assert EndsAt(w, task, n + 1, Submitted, s.proc.finding);
    } else {
      assert History(w, task, n + 1) == Some(s.proc.msgs);
    }
  }

  lemma DenseGrows(steps: map<int, Snapshot>, x: Snapshot)
    requires Dense(steps)
    ensures |steps| !in steps
    ensures var grown := steps[|steps| := x];
            && |grown| == |steps| + 1 && Dense(grown) && grown[|steps|] == x
            && forall k :: 0 <= k < |steps| ==> k in steps && grown[k] == steps[k]
  {
    assert |steps| !in steps;
    var grown := steps[|steps| := x];
    assert forall k :: k in grown <==> k in steps || k == |steps|;
  }

  lemma RowAdded(w: World, task: Task, rows: Rows, rows': Rows)
    requires RowsOk(w, task, rows) && rows.run.Some? && rows'.run == rows.run
    requires |rows.steps| < Limit(w) && PlayedAt(w, task, |rows.steps|).Some?
    requires rows'.steps == rows.steps[|rows.steps| := SnapshotAt(w, task, |rows.steps|)]
    ensures RowsOk(w, task, rows') && |rows'.steps| == |rows.steps| + 1
  {
    hide Play, History;
    var n := |rows.steps|;
    DenseGrows(rows.steps, SnapshotAt(w, task, n));
    forall k | 0 <= k < n + 1
      ensures PlayedAt(w, task, k).Some? && rows'.steps[k] == SnapshotAt(w, task, k)
    {
      if k < n {
        assert rows'.steps[k] == rows.steps[k];
      }
    }
  }

  lemma KillKeeps(w: World, task: Task, s: State)
    requires Inv(w, task, s) && Working(s.proc) && !InSubmitWindow(s.proc)
    ensures Inv(w, task, Killed(s))
  {
    hide Play, Genuine;
  }

  /** The invariant holds in every state a spared schedule reaches. */
  lemma {:induction false} InvHolds(w: World, task: Task, es: seq<Event>)
    requires w.durable && Legal(w, task, es) && Spared(w, task, es)
    ensures Inv(w, task, Exec(w, task, es))
    decreases |es|
  {
    if es == [] {
      assert History(w, task, 0).Some?;
    } else {
      hide Inv;
      var s := Exec(w, task, es[..|es| - 1]);
      InvHolds(w, task, es[..|es| - 1]);
      match es[|es| - 1]
      case Begin(id) => BeginKeeps(w, task, s, id);
      case Step => StepKeeps(w, task, s);
      case Interrupt => KillKeeps(w, task, s);
    }
  }

  // --------------------------------------------------------- main results

  /** One process, never disturbed: it asks step by step, each step once. */
  ghost predicate Straight(s: State) {
    && |s.sent| == |s.rows.steps| + (if s.proc.AtAppend? || (s.proc.Returned? && s.proc.result.Failure?) then 1 else 0)
    && forall i :: 0 <= i < |s.sent| ==> s.sent[i].step == i
  }

  lemma StraightStep(w: World, task: Task, s: State)
    requires Inv(w, task, s) && Working(s.proc) && Straight(s)
    ensures Straight(Tick(w, task, s))
  {
    hide History, PlayedAt, Prepare, TakeTurn, Genuine;
    if s.proc.AtAppend? {
      assert |s.rows.steps| !in s.rows.steps;
    }
  }

  lemma {:induction false} DriveKeeps(w: World, task: Task, s: State)
    requires Inv(w, task, s) && !s.proc.Down? && Sane(w, s.proc)
    ensures var end := Drive(w, task, s);
            && Inv(w, task, end) && end.proc.Returned? && end.resumedAt == s.resumedAt
            && (Straight(s) ==> Straight(end))
    decreases Distance(w, s.proc)
  {
    hide Inv, Straight, Prepare, TakeTurn;
    if Working(s.proc) {
      StepKeeps(w, task, s);
      if Straight(s) { StraightStep(w, task, s); }
      DriveKeeps(w, task, Tick(w, task, s));
    }
  }

  ghost function Uninterrupted(w: World, task: Task, id: string): State {
    Drive(w, task, Start(w, task, FRESH, id, None))
  }

  lemma UninterruptedEnds(w: World, task: Task, id: string)
    requires w.durable
    ensures var u := Uninterrupted(w, task, id);
            Inv(w, task, u) && u.proc.Returned? && Straight(u) && u.resumedAt == 0
  {
    assert Legal(w, task, []);
    InvHolds(w, task, []);
    BeginKeeps(w, task, FRESH, id);
    DriveKeeps(w, task, Start(w, task, FRESH, id, None));
  }

  /** The two runs returned, wrote and asked the same. Only the final row's step
      count differs: it is the resumed process's own count, so the resumption point
      makes up the difference. */
  ghost predicate SameRun(s: State, u: State) {
    && s.proc.Returned? && s.proc.result.Success? && u.proc.Returned? && u.proc.result.Success?
    && var r, full := s.proc.result.value, u.proc.result.value;
    && r.stop == full.stop && r.finding == full.finding
    && s.resumedAt + r.steps == full.steps
    && s.rows.steps == u.rows.steps
    && s.rows.run.Some? && u.rows.run.Some? && s.rows.run.value.status == u.rows.run.value.status
    && forall i :: 0 <= i < |s.sent| ==> 0 <= s.sent[i].step < |u.sent| && s.sent[i] == u.sent[s.sent[i].step]
  }

  lemma RowsAgree(w: World, task: Task, a: Rows, b: Rows)
    requires RowsOk(w, task, a) && RowsOk(w, task, b) && |a.steps| == |b.steps|
    ensures a.steps == b.steps
  {
    hide History, PlayedAt;
    SameKeys(a.steps.Keys, b.steps.Keys);
    forall k | k in a.steps
      ensures a.steps[k] == b.steps[k]
    {
      assert a.steps[k] == SnapshotAt(w, task, k);
    }
  }

  lemma SameKeys(a: set<int>, b: set<int>)
    requires forall k :: k in a <==> k in b
    ensures a == b
  {
    assert (forall k :: k in a <==> k in b) ==> a == b;
  }

  lemma EndsAgree(w: World, task: Task, s: State, u: State)
    requires Inv(w, task, s) && s.proc.Returned? && s.proc.result.Success?
    requires Inv(w, task, u) && u.proc.Returned? && u.resumedAt == 0 && Straight(u)
    ensures SameRun(s, u)
  {
    hide History, PlayedAt, RowsOk;
    var r := s.proc.result.value;
    var n := |s.rows.steps|;
    if u.proc.result.Failure? {
      EndOrFailure(w, task, n, r.stop, r.finding, |u.rows.steps|);
    } else {
      var full := u.proc.result.value;
      EndIsUnique(w, task, n, r.stop, r.finding, |u.rows.steps|, full.stop, full.finding);
      RowsAgree(w, task, s.rows, u.rows);
      forall i | 0 <= i < |s.sent|
        ensures s.sent[i].step < |u.sent| && s.sent[i] == u.sent[s.sent[i].step]
      {
        var k := s.sent[i].step;
        assert Genuine(w, task, s.sent[i]);
        if k >= n {
          if r.stop.Submitted? {
            SubmissionEnds(w, task, n, r.finding);
            HistoryPrefix(w, task, n, k);
          }
        } else {
          assert Genuine(w, task, u.sent[k]);
        }
      }
    }
  }

  /** Crash-resume refinement: however often the run was interrupted outside the window,
      if it returns a result then the uninterrupted run does too, with the same stop,
      finding, persisted snapshots and requests. */
  lemma CrashedRunsRefine(w: World, task: Task, es: seq<Event>, id: string)
    requires w.durable && Legal(w, task, es) && Spared(w, task, es)
    requires Exec(w, task, es).proc.Returned? && Exec(w, task, es).proc.result.Success?
    ensures SameRun(Exec(w, task, es), Uninterrupted(w, task, id))
  {
    InvHolds(w, task, es);
    UninterruptedEnds(w, task, id);
    EndsAgree(w, task, Exec(w, task, es), Uninterrupted(w, task, id));
  }

  /** From wherever a spared schedule left an unfinished run, one undisturbed restart
      succeeds exactly when the uninterrupted run does, and then with its outcome. */
  lemma RestartCompletes(w: World, task: Task, es: seq<Event>, id: string)
    requires w.durable && Legal(w, task, es) && Spared(w, task, es) && Allowed(Exec(w, task, es), Begin(id))
    ensures var r := Drive(w, task, Start(w, task, Exec(w, task, es), id, None));
            var u := Uninterrupted(w, task, id);
            && r.proc.Returned? && u.proc.Returned?
            && (r.proc.result.Success? <==> u.proc.result.Success?)
            && (r.proc.result.Success? ==> SameRun(r, u))
  {
    InvHolds(w, task, es);
    RestartFrom(w, task, Exec(w, task, es), id);
  }

  lemma RestartFrom(w: World, task: Task, s: State, id: string)
    requires w.durable && Inv(w, task, s) && Allowed(s, Begin(id))
    ensures var r := Drive(w, task, Start(w, task, s, id, None));
            var u := Uninterrupted(w, task, id);
            && r.proc.Returned? && u.proc.Returned?
            && (r.proc.result.Success? <==> u.proc.result.Success?)
            && (r.proc.result.Success? ==> SameRun(r, u))
  {
    hide History, PlayedAt, Tick;
    BeginKeeps(w, task, s, id);
    DriveKeeps(w, task, Start(w, task, s, id, None));
    UninterruptedEnds(w, task, id);
    var r := Drive(w, task, Start(w, task, s, id, None));
    var u := Uninterrupted(w, task, id);
    if r.proc.result.Success? {
      EndsAgree(w, task, r, u);
    } else if u.proc.result.Success? {
      EndOrFailure(w, task, |u.rows.steps|, u.proc.result.value.stop, u.proc.result.value.finding, |r.rows.steps|);
    }
  }
}
