/** What every request of a run looks like, over every schedule: interrupted anywhere,
    restarted, run again after its end, with a budget or without. */
module AgentRequests {
  import opened Wrappers
  import opened Llm
  import opened AgentSpec
  import opened AgentRecovery
  import opened AgentHistory
  import opened AgentCrashes
  import opened AgentForced
  import opened Budgets
  import opened Pairing
  import AgentBudget

  // --------------------------------------------------------- the prompt first

  ghost predicate Begins(w: World, task: Task, msgs: seq<Message>) {
    msgs != [] && msgs[0] == Message(User, w.render(task), [], "")
  }

  /** Every stored history, the process and every request begin with the prompt. */
  ghost predicate PromptFirst(w: World, task: Task, s: State) {
    && (forall k :: k in s.rows.steps ==> Begins(w, task, s.rows.steps[k].messages))
    && (s.proc.AtHead? || s.proc.AtComplete? || s.proc.AtAppend? ==> Begins(w, task, s.proc.msgs))
    && (forall i :: 0 <= i < |s.sent| ==> Begins(w, task, s.sent[i].request.messages))
  }

  lemma PromptBegin(w: World, task: Task, s: State, id: string, budget: Option<Ledger>)
    requires PromptFirst(w, task, s)
    ensures PromptFirst(w, task, Start(w, task, s, id, budget))
  {
  }

  lemma PromptTick(w: World, task: Task, s: State)
    requires PromptFirst(w, task, s) && Working(s.proc)
    ensures PromptFirst(w, task, Tick(w, task, s))
  {
    match s.proc
    case AtHead(_, _, _, msgs, _) =>
      PrepareKeepsFirst(w, msgs);
      hide Prepare;
    case AtComplete(_, _, step, msgs, _) =>
      var request := RequestFor(w, step, msgs);
      if w.complete(request).Success? {
        TurnKeepsFirst(w, task, step, msgs, w.complete(request).value);
      }
      hide TakeTurn;
    case AtAppend(_, _, _, _, _, _, _) =>
    case AtFinish(_, _, _, _, _, _) =>
  }

  /** Over every schedule the first message of every request, of every stored history and
      of the running process is the task prompt rendered when the run started. */
  lemma {:induction false} PromptAlwaysFirst(w: World, task: Task, es: seq<Event>)
    requires Legal(w, task, es)
    ensures PromptFirst(w, task, Exec(w, task, es))
    decreases |es|
  {
    if es != [] {
      var s := Exec(w, task, es[..|es| - 1]);
      PromptAlwaysFirst(w, task, es[..|es| - 1]);
      match es[|es| - 1]
      case Begin(id) => PromptBegin(w, task, s, id, None);
      case Step => PromptTick(w, task, s);
      case Interrupt =>
    }
  }

  /** And so it is when a budget is set, and when a clause is run again after its end. */
  lemma {:induction false} PromptAlwaysFirstWithBudget(w: World, task: Task, es: seq<Event>)
    requires AgentBudget.Lawful(w, task, es)
    ensures PromptFirst(w, task, AgentBudget.Balance(w, task, es).s)
    decreases |es|
  {
    if es != [] {
      var a := AgentBudget.Balance(w, task, es[..|es| - 1]);
      PromptAlwaysFirstWithBudget(w, task, es[..|es| - 1]);
      match es[|es| - 1]
      case Begin(id) => PromptBegin(w, task, a.s, id, Some(EMPTY));
      case Step => PromptTick(w, task, a.s);
      case Interrupt =>
    }
  }

  // ------------------------------------------- where a request comes from

  /** The history step `k` works on: what step `k - 1` stored. */
  ghost predicate IsBase(w: World, task: Task, rows: Rows, k: int, h: seq<Message>) {
    if k == 0 then h == InitialMessages(w, task) else k - 1 in rows.steps && h == rows.steps[k - 1].messages
  }

  /** Every request is prepared from what the step before it has stored. */
  ghost predicate Rooted(w: World, task: Task, s: State) {
    && (s.proc.AtHead? ==> IsBase(w, task, s.rows, s.proc.step, s.proc.msgs))
    && (s.proc.AtComplete? ==> exists h :: IsBase(w, task, s.rows, s.proc.step, h) && s.proc.msgs == Prepare(w, h))
    && forall i :: 0 <= i < |s.sent| ==> RootedRequest(w, task, s.rows, s.sent[i])
  }

  ghost predicate RootedRequest(w: World, task: Task, rows: Rows, sent: Sent) {
    exists h :: IsBase(w, task, rows, sent.step, h) && sent.request == RequestFor(w, sent.step, Prepare(w, h))
  }

  lemma RootedBegin(w: World, task: Task, s: State, id: string)
    requires w.durable && Tidy(w, task, s) && Rooted(w, task, s) && Allowed(s, Begin(id))
    ensures Rooted(w, task, Start(w, task, s, id, None))
  {
    hide Prepare;
    if s.rows.run.Some? && |s.rows.steps| > 0 {
      ResumesAtEnd(w, task, s, id);
    }
    forall i | 0 <= i < |s.sent|
      ensures RootedRequest(w, task, Start(w, task, s, id, None).rows, s.sent[i])
    {
      assert RootedRequest(w, task, s.rows, s.sent[i]);
    }
  }

  /** Rows that are only added to keep every root. */
  lemma RootStays(w: World, task: Task, rows: Rows, rows': Rows, sent: Sent)
    requires RootedRequest(w, task, rows, sent)
    requires forall k :: k in rows.steps ==> k in rows'.steps && rows'.steps[k] == rows.steps[k]
    ensures RootedRequest(w, task, rows', sent)
  {
    hide Prepare;
    var h :| IsBase(w, task, rows, sent.step, h) && sent.request == RequestFor(w, sent.step, Prepare(w, h));
    assert IsBase(w, task, rows', sent.step, h);
  }

  lemma RootedTick(w: World, task: Task, s: State)
    requires Tidy(w, task, s) && Rooted(w, task, s) && Working(s.proc)
    ensures Rooted(w, task, Tick(w, task, s))
  {
    hide Prepare, TakeTurn, IsComplete;
    var t := Tick(w, task, s);
    if s.proc.AtAppend? {
      DenseGrows(s.rows.steps, AgentSpec.Snapshot(s.proc.msgs, s.proc.reply.input, s.proc.reply.output));
    }
    assert forall k :: k in s.rows.steps ==> k in t.rows.steps && t.rows.steps[k] == s.rows.steps[k];
    hide Tidy;
    forall i | 0 <= i < |t.sent|
      ensures RootedRequest(w, task, t.rows, t.sent[i])
    {
      if i < |s.sent| {
        RootStays(w, task, s.rows, t.rows, s.sent[i]);
      }
    }
  }

  lemma {:induction false} AlwaysRooted(w: World, task: Task, es: seq<Event>)
    requires w.durable && Legal(w, task, es)
    ensures Rooted(w, task, Exec(w, task, es))
    decreases |es|
  {
    if es != [] {
      var front := es[..|es| - 1];
      var s := Exec(w, task, front);
      AlwaysRooted(w, task, front);
      AlwaysTidy(w, task, front);
      hide Tidy;
      match es[|es| - 1]
      case Begin(id) => RootedBegin(w, task, s, id);
      case Step => RootedTick(w, task, s);
      case Interrupt =>
    }
  }

  // ----------------------------------------------------------- main result

  /** Over every schedule, wherever it interrupts: the request of step `k` is prepared from
      the history that step `k - 1` stored, or from the prompt alone; it forces the
      submission in the last step and in no other; it begins with the
      task prompt rendered at the start and ends with the latest messages of that
      history. Over a spared one it is also paired as long as compaction cut cleanly. */
  lemma EveryRequest(w: World, task: Task, es: seq<Event>, i: nat) returns (h: seq<Message>)
    requires w.durable && Legal(w, task, es) && i < |Exec(w, task, es).sent|
    ensures var s := Exec(w, task, es);
            var k, request := s.sent[i].step, s.sent[i].request;
            && IsBase(w, task, s.rows, k, h) && request.messages == Prepare(w, h)
            && request.maxTokens == 1024
            && request.forceToolName == (if k == w.maxSteps - 1 then "submit_finding" else "")
            && Begins(w, task, h) && Begins(w, task, request.messages) && KeepsEnds(w, h, request.messages)
    ensures var k := Exec(w, task, es).sent[i].step;
            Spared(w, task, es) ==> 0 <= k < Limit(w) && History(w, task, k) == Some(h)
                                    && (CleanUpTo(w, task, k) ==> Paired(Exec(w, task, es).sent[i].request.messages))
  {
    var s := Exec(w, task, es);
    AlwaysRooted(w, task, es);
    AlwaysFramed(w, task, es);
    PromptAlwaysFirst(w, task, es);
    assert RootedRequest(w, task, s.rows, s.sent[i]);
    hide Prepare;
    h :| IsBase(w, task, s.rows, s.sent[i].step, h)
         && s.sent[i].request == RequestFor(w, s.sent[i].step, Prepare(w, h));
    PrepareKeepsEnds(w, h);
    if Spared(w, task, es) {
      InvHolds(w, task, es);
      SparedRequest(w, task, s, i, h);
    }
  }

  lemma SparedRequest(w: World, task: Task, s: State, i: nat, h: seq<Message>)
    requires Inv(w, task, s) && i < |s.sent| && IsBase(w, task, s.rows, s.sent[i].step, h)
    ensures var k := s.sent[i].step;
            && 0 <= k < Limit(w) && History(w, task, k) == Some(h)
            && (CleanUpTo(w, task, k) ==> Paired(s.sent[i].request.messages))
  {
    hide Prepare, Play;
    assert Genuine(w, task, s.sent[i]);
    var k: nat := s.sent[i].step;
    if k > 0 {
      assert s.rows.steps[k - 1] == SnapshotAt(w, task, k - 1);
      HistoryPrefix(w, task, k - 1, k);
    }
    hide RowsOk, ProcOk, PlayedAt;
    if CleanUpTo(w, task, k) {
      HistoryPaired(w, task, k);
    }
  }
}
