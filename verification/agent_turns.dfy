/** What one turn appends to the history, message by message. */
module AgentTurns {
  import opened Wrappers
  import opened Llm
  import opened AgentSpec

  /** A call that submits a finding which passes validation. */
  ghost predicate IsSubmission(w: World, task: Task, call: ToolCall) {
    call.name == "submit_finding" && ParseAndValidateFinding(w, task, call.args).Success?
  }

  /** The answer to any other call: what the tool returns, or why not, or what is wrong
      with the submission. */
  ghost predicate IsAnswer(w: World, task: Task, call: ToolCall, m: Message) {
    && m.role == Tool && m.toolCalls == [] && m.toolCallId == call.id
    && if call.name == "submit_finding" then
         && ParseAndValidateFinding(w, task, call.args).Failure?
         && m.content == "invalid: " + ParseAndValidateFinding(w, task, call.args).error
       else
         match w.dispatch(call)
         case Success(text) => m.content == text
         case Failure(e) => m.content == "tool error: " + e
  }

  /** The first `k` calls are answered one by one; the next one submits, unless there is
      none. */
  ghost predicate AnsweredUpTo(w: World, task: Task, calls: seq<ToolCall>, k: nat, a: Answered) {
    && k == |a.replies| <= |calls|
    && (forall i :: 0 <= i < k ==> !IsSubmission(w, task, calls[i]) && IsAnswer(w, task, calls[i], a.replies[i]))
    && if k == |calls| then a.finding.None?
       else IsSubmission(w, task, calls[k])
            && a.finding == Some(ParseAndValidateFinding(w, task, calls[k].args).value)
  }

  lemma {:induction false} CallsInOrder(w: World, task: Task, calls: seq<ToolCall>)
    ensures var a := AnswerCalls(w, task, calls); AnsweredUpTo(w, task, calls, |a.replies|, a)
  {
    hide ParseAndValidateFinding;
    if calls != [] {
      CallsInOrder(w, task, calls[1..]);
      if !IsSubmission(w, task, calls[0]) {
        var a, rest := AnswerCalls(w, task, calls), AnswerCalls(w, task, calls[1..]);
        assert IsAnswer(w, task, calls[0], a.replies[0]);
        assert a.replies[1..] == rest.replies && a.finding == rest.finding;
        hide AnswerCalls;
        OneCallMore(w, task, calls, rest, a);
      }
    }
  }

  lemma OneCallMore(w: World, task: Task, calls: seq<ToolCall>, rest: Answered, a: Answered)
    requires calls != [] && AnsweredUpTo(w, task, calls[1..], |rest.replies|, rest)
    requires !IsSubmission(w, task, calls[0]) && a.replies != [] && IsAnswer(w, task, calls[0], a.replies[0])
    requires a.replies[1..] == rest.replies && a.finding == rest.finding
    ensures AnsweredUpTo(w, task, calls, |a.replies|, a)
  {
    hide IsSubmission, IsAnswer, ParseAndValidateFinding;
    var k := |a.replies|;
    forall i | 0 <= i < k
      ensures !IsSubmission(w, task, calls[i]) && IsAnswer(w, task, calls[i], a.replies[i])
    {
      if i > 0 {
        assert calls[i] == calls[1..][i - 1] && a.replies[i] == rest.replies[i - 1];
      }
    }
    if k < |calls| {
      assert calls[k] == calls[1..][k - 1];
    }
  }

  /** What the program says to the model at the end of a turn. */
  ghost predicate IsNudge(w: World, step: int, calls: seq<ToolCall>, submitted: bool, tail: seq<Message>) {
    if calls == [] then
      tail == [Message(User, if step == w.maxSteps - 1 then "You MUST call submit_finding now."
                             else "Use a tool, or call submit_finding to finish.", [], "")]
    else if step == w.maxSteps - 2 && !submitted then
      tail == [Message(User, "This is your last tool call. Your next response MUST call submit_finding.", [], "")]
    else tail == []
  }

  /** After a reply the history is the one that was sent, the reply with its calls, one
      answer for each call in front of the first valid submission, in order, and what the
      program says; and the turn finds what that submission holds. */
  lemma TurnForm(w: World, task: Task, step: int, prepared: seq<Message>, resp: Response)
    returns (replies: seq<Message>, tail: seq<Message>)
    ensures var turn := TakeTurn(w, task, step, prepared, resp);
            && turn.history == prepared + [Message(Assistant, resp.content, resp.toolCalls, "")] + replies + tail
            && AnsweredUpTo(w, task, resp.toolCalls, |replies|, Answered(replies, turn.finding))
            && IsNudge(w, step, resp.toolCalls, turn.finding.Some?, tail)
  {
    var turn, a := TakeTurn(w, task, step, prepared, resp), AnswerCalls(w, task, resp.toolCalls);
    replies := a.replies;
    CallsInOrder(w, task, resp.toolCalls);
    hide IsAnswer, IsSubmission, ParseAndValidateFinding;
    var asked := prepared + [Message(Assistant, resp.content, resp.toolCalls, "")];
    if resp.toolCalls == [] {
      assert replies == [] && asked + replies == asked;
    } else {
      assert asked + replies + [] == asked + replies;
    }
    tail := turn.history[|asked| + |replies|..];
    assert Answered(replies, turn.finding) == a;
  }

  /** So it submits exactly when one of its calls does. */
  lemma SubmitsIff(w: World, task: Task, step: int, prepared: seq<Message>, resp: Response)
    ensures TakeTurn(w, task, step, prepared, resp).finding.Some? <==>
            exists i :: 0 <= i < |resp.toolCalls| && IsSubmission(w, task, resp.toolCalls[i])
  {
    var replies, tail := TurnForm(w, task, step, prepared, resp);
    hide TakeTurn, ParseAndValidateFinding;
  }
}
