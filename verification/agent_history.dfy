/** What every request of a run looks like: the task prompt first, the latest
    messages last, and tool calls paired with their answers. */
module AgentHistory {
  import opened Wrappers
  import opened Domain
  import opened Llm
  import opened AgentSpec
  import opened AgentRecovery
  import opened Pairing
  import opened Tokens
  import Compaction
  import opened Budgets

  /** Without a valid submission every call is answered; with one, the submission
      and the calls after it are not. */
  lemma {:induction false} CallsAnswered(w: World, task: Task, calls: seq<ToolCall>)
    ensures var a := AnswerCalls(w, task, calls);
            if a.finding.None? then Answers(calls, a.replies) else |a.replies| < |calls|
  {
    if calls != [] {
      CallsAnswered(w, task, calls[1..]);
      var rest := AnswerCalls(w, task, calls[1..]);
      if AnswerCalls(w, task, calls).finding.None? {
        forall i | 0 <= i < |calls|
          ensures var m := AnswerCalls(w, task, calls).replies[i];
                  m.role == Tool && m.toolCalls == [] && m.toolCallId == calls[i].id
        {
          if i > 0 {
            assert AnswerCalls(w, task, calls).replies[i] == rest.replies[i - 1];
            assert calls[i] == calls[1..][i - 1];
          }
        }
      }
    }
  }

  lemma ExchangePaired(prepared: seq<Message>, call: Message, replies: seq<Message>, tail: seq<Message>)
    requires Paired(prepared) && call.role == Assistant
    requires Answers(call.toolCalls, replies)
    requires |tail| <= 1 && (tail != [] ==> tail[0].role == User && tail[0].toolCalls == [])
    ensures Paired(prepared + ([call] + replies + tail))
  {
    var all := [call] + replies + tail;
    assert all[1..1 + |replies|] == replies;
    assert all[1 + |replies|..] == tail;
    assert Paired(tail);
    assert Paired(all);
    PairedAppend(prepared, all);
  }

  lemma UnansweredUnpaired(prepared: seq<Message>, call: Message, replies: seq<Message>)
    requires Paired(prepared) && |replies| < |call.toolCalls|
    ensures !Paired(prepared + ([call] + replies + []))
  {
    PairedAppend(prepared, [call] + replies + []);
  }

  lemma TurnShape(w: World, task: Task, step: int, prepared: seq<Message>, resp: Response)
    returns (replies: seq<Message>, tail: seq<Message>)
    ensures var turn := TakeTurn(w, task, step, prepared, resp);
            && turn.history == prepared + ([Message(Assistant, resp.content, resp.toolCalls, "")] + replies + tail)
            && |tail| <= 1 && (tail != [] ==> tail[0].role == User && tail[0].toolCalls == [])
            && if turn.finding.None? then Answers(resp.toolCalls, replies)
               else |replies| < |resp.toolCalls| && tail == []
  {
    var history := TakeTurn(w, task, step, prepared, resp).history;
    replies := AnswerCalls(w, task, resp.toolCalls).replies;
    CallsAnswered(w, task, resp.toolCalls);
    tail := history[|prepared| + 1 + |replies|..];
  }

  /** A turn keeps a paired history paired exactly when it does not submit. */
  lemma TurnPairing(w: World, task: Task, step: int, prepared: seq<Message>, resp: Response)
    requires Paired(prepared)
    ensures var turn := TakeTurn(w, task, step, prepared, resp);
            Paired(turn.history) <==> turn.finding.None?
  {
    var replies, tail := TurnShape(w, task, step, prepared, resp);
    var call := Message(Assistant, resp.content, resp.toolCalls, "");
    if TakeTurn(w, task, step, prepared, resp).finding.None? {
      ExchangePaired(prepared, call, replies, tail);
    } else {
      UnansweredUnpaired(prepared, call, replies);
    }
  }

  /** Compaction at step `k`, if it evicts, does not cut between a call and its
      answers. */
  ghost predicate CutsCleanly(w: World, task: Task, k: nat) {
    w.context.Some? && History(w, task, k).Some? ==>
      !Compaction.OrphansToolResult(w.context.value, History(w, task, k).value)
  }

  ghost predicate SendsPaired(w: World, task: Task, k: nat) {
    History(w, task, k).Some? ==> Paired(RequestOf(w, k, History(w, task, k).value).messages)
  }

  ghost predicate CleanUpTo(w: World, task: Task, k: nat) {
    CutsCleanly(w, task, k) && (k > 0 ==> CleanUpTo(w, task, k - 1))
  }

  ghost predicate PairedUpTo(w: World, task: Task, k: nat) {
    SendsPaired(w, task, k) && (k > 0 ==> PairedUpTo(w, task, k - 1))
  }

  /** One undisturbed step: the history after it, from the history before it. */
  lemma HistoryStep(w: World, task: Task, k: nat) returns (h: seq<Message>, resp: Response)
    requires k > 0 && History(w, task, k).Some?
    ensures History(w, task, k - 1) == Some(h) && w.complete(RequestOf(w, k - 1, h)) == Success(resp)
    ensures var turn := TakeTurn(w, task, k - 1, Prepare(w, h), resp);
            turn.finding.None? && History(w, task, k) == Some(turn.history)
  {
    HistoryPrefix(w, task, k - 1, k);
    h := History(w, task, k - 1).value;
    resp := w.complete(RequestOf(w, k - 1, h)).value;
  }

  lemma PrepareKeepsFirst(w: World, h: seq<Message>)
    requires h != []
    ensures Prepare(w, h) != [] && Prepare(w, h)[0] == h[0]
  {
    if w.context.Some? {
      Compaction.EndsSurvive(w.context.value, h);
    }
  }

  lemma TurnKeepsFirst(w: World, task: Task, step: int, prepared: seq<Message>, resp: Response)
    requires prepared != []
    ensures var h := TakeTurn(w, task, step, prepared, resp).history; h != [] && h[0] == prepared[0]
  {
    var replies, tail := TurnShape(w, task, step, prepared, resp);
  }

  /** Whatever is compacted away, the task prompt stays first. */
  lemma {:induction false} PromptStaysFirst(w: World, task: Task, k: nat)
    requires History(w, task, k).Some?
    ensures var h := History(w, task, k).value; h != [] && h[0] == Message(User, w.render(task), [], "")
  {
    if k > 0 {
      var h, resp := HistoryStep(w, task, k);
      PromptStaysFirst(w, task, k - 1);
      PrepareKeepsFirst(w, h);
      TurnKeepsFirst(w, task, k - 1, Prepare(w, h), resp);
    }
  }

  lemma {:induction false} HistoryPaired(w: World, task: Task, k: nat)
    requires History(w, task, k).Some?
    requires k > 0 ==> CleanUpTo(w, task, k - 1)
    ensures Paired(History(w, task, k).value)
    ensures SendsPaired(w, task, k) <==> CutsCleanly(w, task, k)
  {
    if k > 0 {
      var h, resp := HistoryStep(w, task, k);
      HistoryPaired(w, task, k - 1);
      TurnPairing(w, task, k - 1, Prepare(w, h), resp);
    }
    PromptStaysFirst(w, task, k);
    if w.context.Some? {
      Compaction.PreparePairing(w.context.value, History(w, task, k).value);
    }
  }

  /** All requests up to step `k` are paired if and only if no compaction up to step
      `k` cuts between a call and its answers. */
  lemma {:induction false} RequestsPairedIff(w: World, task: Task, k: nat)
    requires History(w, task, k).Some?
    ensures PairedUpTo(w, task, k) <==> CleanUpTo(w, task, k)
  {
    if k == 0 {
      HistoryPaired(w, task, 0);
    } else {
      var h, resp := HistoryStep(w, task, k);
      RequestsPairedIff(w, task, k - 1);
      if CleanUpTo(w, task, k - 1) {
        HistoryPaired(w, task, k);
      }
    }
  }

  /** A request prepared from a history begins with its first message and ends with its
      latest ones. */
  ghost predicate KeepsEnds(w: World, h: seq<Message>, msgs: seq<Message>) {
    h != [] &&
    var keep := if w.context.Some? && w.context.value.keepRecent <= |h| - 1 then w.context.value.keepRecent else |h| - 1;
    && keep < |msgs|
    && msgs[0] == h[0]
    && msgs[|msgs| - keep..] == h[|h| - keep..]
  }

  lemma PrepareKeepsEnds(w: World, h: seq<Message>)
    requires h != []
    ensures KeepsEnds(w, h, Prepare(w, h))
  {
    if w.context.Some? {
      hide Compaction.Prepared;
      Compaction.EndsSurvive(w.context.value, h);
    }
  }

  // -------------------------------------------------------------- findings

  /** A finding comes from a `submit_finding` call of the response whose arguments
      passed validation. */
  lemma {:induction false} FindingIsValidated(w: World, task: Task, calls: seq<ToolCall>)
    ensures var f := AnswerCalls(w, task, calls).finding;
            f.Some? ==> exists i :: 0 <= i < |calls| && calls[i].name == SUBMIT_FINDING
                          && ParseAndValidateFinding(w, task, calls[i].args) == Success(f.value)
  {
    if calls != [] {
      FindingIsValidated(w, task, calls[1..]);
      var rest := AnswerCalls(w, task, calls[1..]).finding;
      if rest.Some? {
        var i :| 0 <= i < |calls| - 1 && calls[1..][i].name == SUBMIT_FINDING
              && ParseAndValidateFinding(w, task, calls[1..][i].args) == Success(rest.value);
        assert calls[i + 1] == calls[1..][i];
      }
    }
  }

  /** The finding of a turn is complete: it names the clause, a risk level, an
      explanation and recommendations. */
  ghost predicate IsComplete(task: Task, f: ClauseAnalysis) {
    && f.clauseId == task.clauseId && f.riskLevel.Some? && f.explanation != "" && f.recommendations != ""
    && f.status == "analyzed"
  }

  lemma TurnFindingComplete(w: World, task: Task, step: int, prepared: seq<Message>, resp: Response)
    ensures var f := TakeTurn(w, task, step, prepared, resp).finding;
            f.Some? ==> IsComplete(task, f.value)
  {
    FindingIsValidated(w, task, resp.toolCalls);
  }

  // -------------------------------------------------------------- submissions

  /** One played step, submitting or not. */
  lemma PlayedStep(w: World, task: Task, k: nat) returns (h: seq<Message>, resp: Response)
    requires PlayedAt(w, task, k).Some?
    ensures History(w, task, k) == Some(h) && w.complete(RequestOf(w, k, h)) == Success(resp)
    ensures PlayedAt(w, task, k).value.turn == TakeTurn(w, task, k, Prepare(w, h), resp)
    ensures SnapshotAt(w, task, k).messages == TakeTurn(w, task, k, Prepare(w, h), resp).history
  {
    h := History(w, task, k).value;
    resp := w.complete(RequestOf(w, k, h)).value;
  }

  /** A submission that compaction let through unharmed is never answered. */
  lemma SubmissionUnpaired(w: World, task: Task, k: nat)
    requires PlayedAt(w, task, k).Some? && PlayedAt(w, task, k).value.turn.finding.Some?
    ensures CleanUpTo(w, task, k) ==> !Paired(SnapshotAt(w, task, k).messages)
  {
    var h, resp := PlayedStep(w, task, k);
    if CleanUpTo(w, task, k) {
      HistoryPaired(w, task, k);
      TurnPairing(w, task, k, Prepare(w, h), resp);
    }
  }

  // ------------------------------------------------------ eviction orphans

  /** Five calls in one reply, the last answered by a text of 80000 tokens, as the
      fallback tokenizer counts them. */
  function LongWorld(): World {
    World(12, true, Some(Compaction.Config(RuneQuarter, 100000, 80000, 4, _ => Success("summary"))), Limits(0, 0, 0),
          _ => Success(Response("", [Call(), Call(), Call(), Call(), Call()], 0, 0, "", "")),
          _ => Success(LongText()), _ => Failure(""), s => s, t => "task", _ => Failure(""))
  }

  function Call(): ToolCall { ToolCall("call-1", "get_contract_section", "{}") }

  function LongText(): (s: string)
    ensures |s| == 320000
  {
    seq(320000, _ => 'x')
  }

  const LONG_TASK := Task("contract", "clause", "")

  lemma LastMessageCosts(count: Counter, msgs: seq<Message>)
    requires msgs != []
    ensures Cost(count, msgs) >= count(msgs[|msgs| - 1].content)
  {
  }

  lemma LongReplies(calls: seq<ToolCall>)
    requires forall i :: 0 <= i < |calls| ==> calls[i] == Call()
    ensures var a := AnswerCalls(LongWorld(), LONG_TASK, calls);
            a.finding.None? && |a.replies| == |calls|
            && forall i :: 0 <= i < |calls| ==> a.replies[i] == ToolResult("call-1", LongText())
  {
    if calls != [] {
      LongReplies(calls[1..]);
    }
  }

  /** A history that ends in four long answers is cut in front of an answer. */
  lemma CutsAtAnswer(c: Compaction.Config, h: seq<Message>)
    requires c.count == RuneQuarter && c.compactAt == 80000 && c.keepRecent == 4 && |h| > 5
    requires h[|h| - 4].role == Tool && |h[|h| - 1].content| == 320000
    ensures Compaction.OrphansToolResult(c, h)
  {
    LastMessageCosts(c.count, h);
    var shortened := Compaction.Shortened(c, h);
    assert shortened[|shortened| - 1] == h[|h| - 1];
    LastMessageCosts(c.count, shortened);
  }

  /** With the default window, trigger and number of recent messages, and the fallback
      tokenizer, the second request of a run can hold answers without their call. */
  lemma CompactionCanOrphan() returns (w: World, task: Task)
    ensures w.context.Some? && w.maxSteps == 12
    ensures var c := w.context.value;
            c.count == RuneQuarter && c.windowLimit == 100000 && c.compactAt == 80000 && c.keepRecent == 4
    ensures History(w, task, 1).Some? && !CutsCleanly(w, task, 1) && !SendsPaired(w, task, 1)
  {
    w, task := LongWorld(), LONG_TASK;
    var first := InitialMessages(w, task);
    var calls := [Call(), Call(), Call(), Call(), Call()];
    LongReplies(calls);
    FirstIsShort(w, task);
    var resp := Response("", calls, 0, 0, "", "");
    assert w.complete(RequestOf(w, 0, first)) == Success(resp);
    var turn := TakeTurn(w, task, 0, first, resp);
    assert turn.finding.None?;
    assert Play(w, task, 0, first).value.turn == turn;
    assert History(w, task, 0) == Some(first);
    assert History(w, task, 1) == Some(turn.history);
    CutsAtAnswer(w.context.value, turn.history);
    HistoryPaired(w, task, 1);
  }

  lemma FirstIsShort(w: World, task: Task)
    requires w == LongWorld() && task == LONG_TASK
    ensures Prepare(w, InitialMessages(w, task)) == InitialMessages(w, task)
    ensures CleanUpTo(w, task, 0)
  {
    var first := InitialMessages(w, task);
    assert first[..0] == [];
    assert Cost(RuneQuarter, first) == MessageCost(RuneQuarter, first[0]);
    assert MessageCost(RuneQuarter, first[0]) < 80000;
    assert History(w, task, 0) == Some(first);
  }
}
