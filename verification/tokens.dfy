/** Token counting (tokens/count.go). The tokenizer is an arbitrary function into
    the naturals; `RuneQuarter` is the concrete fallback. */
module Tokens {
  import opened Llm

  type Counter = string -> nat

  const PER_MESSAGE_OVERHEAD := 4

  /** The fallback used when no encoding can be loaded. */
  function RuneQuarter(s: string): nat { |s| / 4 }

  function CallsCost(count: Counter, calls: seq<ToolCall>): nat {
    if calls == [] then 0
    else CallsCost(count, calls[..|calls| - 1]) + count(calls[|calls| - 1].name) + count(calls[|calls| - 1].args)
  }

  function MessageCost(count: Counter, m: Message): nat {
    count(RoleName(m.role)) + count(m.content) + CallsCost(count, m.toolCalls)
    + (if m.toolCallId != "" then count(m.toolCallId) else 0)
    + PER_MESSAGE_OVERHEAD
  }

  function Cost(count: Counter, msgs: seq<Message>): nat {
    if msgs == [] then 0
    else Cost(count, msgs[..|msgs| - 1]) + MessageCost(count, msgs[|msgs| - 1])
  }

  method CountMessages(count: Counter, msgs: seq<Message>) returns (total: nat)
    ensures total == Cost(count, msgs)
  {
    total := 0;
    for i := 0 to |msgs|
      invariant total == Cost(count, msgs[..i])
    {
      var m := msgs[i];
      assert msgs[..i + 1][..i] == msgs[..i];
      var before := total;
      total := total + count(RoleName(m.role));
      total := total + count(m.content);
      var sofar := total;
      for j := 0 to |m.toolCalls|
        invariant total == sofar + CallsCost(count, m.toolCalls[..j])
      {
        assert m.toolCalls[..j + 1][..j] == m.toolCalls[..j];
        total := total + count(m.toolCalls[j].name);
        total := total + count(m.toolCalls[j].args);
      }
      assert m.toolCalls[..|m.toolCalls|] == m.toolCalls;
      if m.toolCallId != "" {
        total := total + count(m.toolCallId);
      }
      total := total + PER_MESSAGE_OVERHEAD;
    }
    assert msgs[..|msgs|] == msgs;
  }

  /** What is counted of one message: its role, its content, the name and the arguments of
      each call, the id of the call it answers, and four more. */
  lemma CostOfOne(count: Counter, m: Message, call: ToolCall)
    ensures m.toolCalls == [] ==>
              Cost(count, [m]) ==
              count(match m.role
                    case System => "system"
                    case User => "user"
                    case Assistant => "assistant"
                    case Tool => "tool")
              + count(m.content) + (if m.toolCallId == "" then 0 else count(m.toolCallId)) + 4
    ensures Cost(count, [m.(toolCalls := m.toolCalls + [call])]) ==
            Cost(count, [m]) + count(call.name) + count(call.args)
  {
    var more := m.(toolCalls := m.toolCalls + [call]);
    assert [m][..0] == [] && [more][..0] == [];
    assert more.toolCalls[..|m.toolCalls|] == m.toolCalls;
    assert Cost(count, [m]) == MessageCost(count, m) && Cost(count, [more]) == MessageCost(count, more);
  }

  /** The counting loop is additive over concatenation. */
  lemma {:induction false} CostAdditive(count: Counter, a: seq<Message>, b: seq<Message>)
    ensures Cost(count, a + b) == Cost(count, a) + Cost(count, b)
  {
    if b == [] {
      assert a + b == a;
    } else {
      var n := |b| - 1;
      assert (a + b)[..|a + b| - 1] == a + b[..n];
      CostAdditive(count, a, b[..n]);
    }
  }
}
