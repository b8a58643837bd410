/** The protocol both providers demand of a conversation: a message carrying tool
    calls is followed at once by exactly one tool message per call, in call order,
    and no tool message stands anywhere else. */
module Pairing {
  import opened Llm

  ghost predicate Answers(calls: seq<ToolCall>, replies: seq<Message>) {
    && |replies| == |calls|
    && forall i :: 0 <= i < |calls| ==>
         replies[i].role == Tool && replies[i].toolCalls == [] && replies[i].toolCallId == calls[i].id
  }

  ghost predicate Paired(msgs: seq<Message>)
    decreases |msgs|
  {
    msgs == [] ||
    (&& msgs[0].role != Tool
     && var next := 1 + |msgs[0].toolCalls|;
        next <= |msgs| && Answers(msgs[0].toolCalls, msgs[1..next]) && Paired(msgs[next..]))
  }

  /** A paired history can be extended exactly by paired histories. */
  lemma {:induction false} PairedAppend(a: seq<Message>, b: seq<Message>)
    requires Paired(a)
    ensures Paired(a + b) <==> Paired(b)
    decreases |a|
  {
    if a == [] {
      assert a + b == b;
    } else {
      var next := 1 + |a[0].toolCalls|;
      assert (a + b)[1..next] == a[1..next];
      assert (a + b)[next..] == a[next..] + b;
      PairedAppend(a[next..], b);
    }
  }

  /** A paired history may be cut anywhere except in front of a tool message. */
  lemma {:induction false} PairedSuffix(msgs: seq<Message>, k: nat)
    requires Paired(msgs) && k <= |msgs|
    ensures Paired(msgs[k..]) <==> (k == |msgs| || msgs[k].role != Tool)
    decreases |msgs|
  {
    if 0 < k < |msgs| {
      var next := 1 + |msgs[0].toolCalls|;
      if k < next {
        assert msgs[k] == msgs[1..next][k - 1];
        assert msgs[k..][0] == msgs[k];
      } else {
        assert msgs[next..][k - next..] == msgs[k..];
        PairedSuffix(msgs[next..], k - next);
      }
    }
  }

  /** Everything pairing depends on: which messages there are, in what order, and
      who calls and answers whom. */
  ghost predicate SameShape(a: seq<Message>, b: seq<Message>) {
    && |a| == |b|
    && forall i :: 0 <= i < |a| ==>
         a[i].role == b[i].role && a[i].toolCalls == b[i].toolCalls && a[i].toolCallId == b[i].toolCallId
  }

  lemma {:induction false} PairedByShape(a: seq<Message>, b: seq<Message>)
    requires SameShape(a, b) && Paired(a)
    ensures Paired(b)
    decreases |a|
  {
    if a != [] {
      var next := 1 + |a[0].toolCalls|;
      forall i | 0 <= i < next - 1
        ensures b[1..next][i].role == a[1..next][i].role
             && b[1..next][i].toolCalls == a[1..next][i].toolCalls
             && b[1..next][i].toolCallId == a[1..next][i].toolCallId
      {
        assert a[1..next][i] == a[i + 1] && b[1..next][i] == b[i + 1];
      }
      PairedByShape(a[next..], b[next..]);
    }
  }
}
