/** The context manager of agent/context.go: leave the history alone, truncate the
    tool results of its middle, replace the middle by a summary, or drop it. */
module Compaction {
  import opened Wrappers
  import opened Llm
  import opened Tokens
  import opened Pairing

  const MAX_TOOL_RESULT_RUNES := 500
  const TRUNCATION_MARK := "\n...[truncated]...\n"
  const SUMMARY_INSTRUCTION := "Summarize these prior steps and findings concisely so analysis can continue:\n\n"

  /** `summarizer` is the model asked for a summary: prompt to content. */
  datatype Config = Config(
    count: Counter,
    windowLimit: int,
    compactAt: int,
    keepRecent: nat,
    summarizer: string -> Result<string>)

  // ---------------------------------------------------------------- splitting

  function RecentStart(c: Config, msgs: seq<Message>): (k: nat)
    requires msgs != []
    ensures 1 <= k <= |msgs|
    ensures |msgs| - k == if c.keepRecent <= |msgs| - 1 then c.keepRecent else |msgs| - 1
  {
    if |msgs| - c.keepRecent <= 1 then 1 else |msgs| - c.keepRecent
  }

  function Pinned(msgs: seq<Message>): seq<Message> {
    if msgs == [] then [] else msgs[..1]
  }

  function Middle(c: Config, msgs: seq<Message>): seq<Message> {
    if msgs == [] then [] else msgs[1..RecentStart(c, msgs)]
  }

  function Recent(c: Config, msgs: seq<Message>): seq<Message> {
    if msgs == [] then [] else msgs[RecentStart(c, msgs)..]
  }

  // --------------------------------------------------------------- truncation

  function TruncateContent(s: string): string
    requires |s| > MAX_TOOL_RESULT_RUNES
  {
    s[..MAX_TOOL_RESULT_RUNES / 2] + TRUNCATION_MARK + s[|s| - MAX_TOOL_RESULT_RUNES / 2..]
  }

  function TruncateOne(m: Message): Message {
    if m.role == Tool && |m.content| > MAX_TOOL_RESULT_RUNES
    then m.(content := TruncateContent(m.content)) else m
  }

  function Truncated(msgs: seq<Message>): (r: seq<Message>)
    ensures |r| == |msgs|
    ensures forall i :: 0 <= i < |msgs| ==> r[i] == TruncateOne(msgs[i])
  {
    seq(|msgs|, i requires 0 <= i < |msgs| => TruncateOne(msgs[i]))
  }

  method TruncateToolResults(msgs: seq<Message>) returns (out: seq<Message>)
    ensures out == Truncated(msgs)
  {
    out := msgs;
    for i := 0 to |msgs|
      invariant |out| == |msgs|
      invariant forall k :: 0 <= k < i ==> out[k] == TruncateOne(msgs[k])
      invariant forall k :: i <= k < |msgs| ==> out[k] == msgs[k]
    {
      var m := out[i];
      if m.role == Tool && |m.content| > MAX_TOOL_RESULT_RUNES {
        var head := m.content[..MAX_TOOL_RESULT_RUNES / 2];
        var tail := m.content[|m.content| - MAX_TOOL_RESULT_RUNES / 2..];
        out := out[i := m.(content := head + TRUNCATION_MARK + tail)];
      }
    }
  }

  /** Truncating twice is truncating once, although a truncated result (519 runes)
      is still above the 500-rune trigger; a tool result never exceeds 519 runes
      afterwards, longer ones get strictly shorter, and roles, ids, calls, order
      and every other message are untouched. */
  lemma TruncationLaws(msgs: seq<Message>)
    ensures Truncated(Truncated(msgs)) == Truncated(msgs)
    ensures SameShape(msgs, Truncated(msgs))
    ensures forall i :: 0 <= i < |msgs| ==>
              var before, after := msgs[i], Truncated(msgs)[i];
              && (before.role != Tool ==> after == before)
              && (after.role == Tool ==> |after.content| <= 519)
              && (before.role == Tool && |before.content| > 519 ==> |after.content| < |before.content|)
              && (before.role == Tool && |before.content| > 500 ==>
                    |after.content| == 519
                    && after.content[..250] == before.content[..250]
                    && after.content[250..269] == "\n...[truncated]...\n"
                    && after.content[269..] == before.content[|before.content| - 250..])
  {
    assert |TRUNCATION_MARK| == 19 && TRUNCATION_MARK == "\n...[truncated]...\n";
    forall i | 0 <= i < |msgs|
      ensures TruncateOne(TruncateOne(msgs[i])) == TruncateOne(msgs[i])
      ensures msgs[i].role == Tool && |msgs[i].content| > 500 ==>
                var t := TruncateOne(msgs[i]).content;
                |t| == 519 && t[..250] == msgs[i].content[..250] && t[250..269] == TRUNCATION_MARK
                && t[269..] == msgs[i].content[|msgs[i].content| - 250..]
    {
      if msgs[i].role == Tool && |msgs[i].content| > 500 {
        var t := TruncateContent(msgs[i].content);
        assert t[..250] == msgs[i].content[..250] && t[250..269] == TRUNCATION_MARK;
        assert t[|t| - 250..] == msgs[i].content[|msgs[i].content| - 250..];
      }
    }
  }

  // ------------------------------------------------------------------ summary

  function Line(m: Message): string { RoleName(m.role) + ": " + m.content + "\n" }

  function Transcript(msgs: seq<Message>): string {
    if msgs == [] then "" else Transcript(msgs[..|msgs| - 1]) + Line(msgs[|msgs| - 1])
  }

  function SummaryOf(c: Config, msgs: seq<Message>): Result<Message> {
    match c.summarizer(SUMMARY_INSTRUCTION + Transcript(msgs))
    case Failure(e) => Failure("summarize: " + e)
    case Success(content) => Success(Message(Assistant, content, [], ""))
  }

  method Summarize(c: Config, msgs: seq<Message>) returns (r: Result<Message>)
    ensures r == SummaryOf(c, msgs)
    ensures r.Success? <==> AnswerAbout(c, msgs).Success?
    ensures r.Success? ==> r.value == Message(Assistant, AnswerAbout(c, msgs).value, [], "")
  {
    SummaryHolds(c, msgs);
    var sb := "";
    for i := 0 to |msgs|
      invariant sb == Transcript(msgs[..i])
    {
      assert msgs[..i + 1][..i] == msgs[..i];
      sb := sb + (RoleName(msgs[i].role) + ": " + msgs[i].content + "\n");
    }
    assert msgs[..|msgs|] == msgs;
    var resp := c.summarizer(SUMMARY_INSTRUCTION + sb);
    match resp
    case Failure(e) => r := Failure("summarize: " + e);
    case Success(content) => r := Success(Message(Assistant, content, [], ""));
  }

  /** The line of one message. */
  lemma TranscriptOfOne(m: Message)
    ensures Transcript([m]) == (match m.role
                                case System => "system"
                                case User => "user"
                                case Assistant => "assistant"
                                case Tool => "tool") + ": " + m.content + "\n"
  {
    assert [m][..0] == [];
    assert Transcript([m]) == "" + Line(m);
  }

  lemma TranscriptSnoc(msgs: seq<Message>, m: Message)
    ensures Transcript(msgs + [m]) == Transcript(msgs) + Line(m)
  {
    hide Line;
    assert (msgs + [m])[..|msgs|] == msgs;
  }

  lemma AppendOne(a: seq<Message>, b: seq<Message>, m: Message)
    requires Transcript(a + b) == Transcript(a) + Transcript(b)
    ensures Transcript(a + (b + [m])) == Transcript(a) + Transcript(b + [m])
  {
    hide Line, Transcript;
    TranscriptSnoc(a + b, m);
    TranscriptSnoc(b, m);
    assert a + (b + [m]) == (a + b) + [m];
  }

  /** And how the lines of two lists go together. */
  lemma {:induction false} TranscriptAppend(a: seq<Message>, b: seq<Message>)
    ensures Transcript(a + b) == Transcript(a) + Transcript(b)
  {
    if b == [] {
      assert a + b == a;
    } else {
      hide Line, Transcript;
      TranscriptAppend(a, b[..|b| - 1]);
      AppendOne(a, b[..|b| - 1], b[|b| - 1]);
      assert b == b[..|b| - 1] + [b[|b| - 1]];
    }
  }

  // ------------------------------------------------------------------ cascade

  function Shortened(c: Config, msgs: seq<Message>): seq<Message> {
    Pinned(msgs) + Truncated(Middle(c, msgs)) + Recent(c, msgs)
  }

  /** The middle is taken out: neither leaving the history alone nor truncating
      brings it under the trigger. */
  predicate Evicts(c: Config, msgs: seq<Message>) {
    Cost(c.count, msgs) >= c.compactAt && Cost(c.count, Shortened(c, msgs)) >= c.compactAt
  }

  function Prepared(c: Config, msgs: seq<Message>): seq<Message> {
    if Cost(c.count, msgs) < c.compactAt then msgs
    else if Cost(c.count, Shortened(c, msgs)) < c.compactAt then Shortened(c, msgs)
    else
      match SummaryOf(c, Truncated(Middle(c, msgs)))
      case Failure(_) => Pinned(msgs) + Recent(c, msgs)
      case Success(summary) =>
        var result := Pinned(msgs) + [summary] + Recent(c, msgs);
        if Cost(c.count, result) > c.windowLimit then Pinned(msgs) + Recent(c, msgs) else result
  }

  method Prepare(c: Config, msgs: seq<Message>) returns (result: seq<Message>)
    ensures result == Prepared(c, msgs)
    ensures msgs != [] ==> IsPrepared(c, msgs, result)
  {
    if msgs != [] { PreparedCases(c, msgs); }
    hide IsPrepared;
    var total := CountMessages(c.count, msgs);
    if total < c.compactAt {
      return msgs;
    }
    var pinned, recent := Pinned(msgs), Recent(c, msgs);
    var middle := TruncateToolResults(Middle(c, msgs));
    result := pinned + middle + recent;
    total := CountMessages(c.count, result);
    if total < c.compactAt {
      return result;
    }
    var summary := Summarize(c, middle);
    if summary.Failure? {
      return pinned + recent;
    }
    result := pinned + [summary.value] + recent;
    total := CountMessages(c.count, result);
    if total > c.windowLimit {
      result := pinned + recent;
    }
  }

  // --------------------------------------------------------------- properties

  lemma SplitCovers(c: Config, msgs: seq<Message>)
    ensures Pinned(msgs) + Middle(c, msgs) + Recent(c, msgs) == msgs
  {
  }

  /** What stands between the two ends of a prepared history. */
  ghost function Kept(c: Config, msgs: seq<Message>): seq<Message> {
    if Cost(c.count, msgs) < c.compactAt then Middle(c, msgs)
    else if Cost(c.count, Shortened(c, msgs)) < c.compactAt then Truncated(Middle(c, msgs))
    else
      match SummaryOf(c, Truncated(Middle(c, msgs)))
      case Failure(_) => []
      case Success(summary) =>
        if Cost(c.count, Pinned(msgs) + [summary] + Recent(c, msgs)) > c.windowLimit then [] else [summary]
  }

  /** However `Prepare` goes, it replaces the middle only; and unless it dropped the
      middle altogether, the result is under the trigger or inside the window. */
  lemma PreparedForm(c: Config, msgs: seq<Message>)
    ensures Prepared(c, msgs) == Pinned(msgs) + Kept(c, msgs) + Recent(c, msgs)
    ensures !Evicts(c, msgs) ==> Cost(c.count, Prepared(c, msgs)) < c.compactAt
    ensures Evicts(c, msgs) && Kept(c, msgs) != [] ==>
              && Kept(c, msgs) == [SummaryOf(c, Truncated(Middle(c, msgs))).value]
              && Cost(c.count, Prepared(c, msgs)) <= c.windowLimit
  {
    hide Cost, Truncated, SummaryOf, Pinned, Middle, Recent;
    SplitCovers(c, msgs);
    assert Pinned(msgs) + [] + Recent(c, msgs) == Pinned(msgs) + Recent(c, msgs);
  }

  /** What the summariser says when it is asked about these messages. */
  ghost function AnswerAbout(c: Config, msgs: seq<Message>): Result<string> {
    c.summarizer("Summarize these prior steps and findings concisely so analysis can continue:\n\n" + Transcript(msgs))
  }

  lemma SummaryHolds(c: Config, msgs: seq<Message>)
    ensures var answer := AnswerAbout(c, msgs);
            && (SummaryOf(c, msgs).Success? <==> answer.Success?)
            && (answer.Success? ==> SummaryOf(c, msgs).value == Message(Assistant, answer.value, [], ""))
  {
    hide Transcript;
  }

  ghost function KeepOf(c: Config, msgs: seq<Message>): nat
    requires msgs != []
  {
    if c.keepRecent <= |msgs| - 1 then c.keepRecent else |msgs| - 1
  }

  lemma SplitIs(c: Config, msgs: seq<Message>)
    requires msgs != []
    ensures Pinned(msgs) == msgs[..1] && Recent(c, msgs) == msgs[|msgs| - KeepOf(c, msgs)..]
    ensures Middle(c, msgs) == msgs[1..|msgs| - KeepOf(c, msgs)]
  {
  }

  lemma CascadeIs(c: Config, msgs: seq<Message>, first: seq<Message>, middle: seq<Message>, recent: seq<Message>,
                  answer: Result<string>)
    requires Pinned(msgs) == first && Recent(c, msgs) == recent && Truncated(Middle(c, msgs)) == middle
    requires SummaryOf(c, middle).Success? <==> answer.Success?
    requires answer.Success? ==> SummaryOf(c, middle).value == Message(Assistant, answer.value, [], "")
    ensures if Cost(c.count, msgs) < c.compactAt then Prepared(c, msgs) == msgs
            else if Cost(c.count, first + middle + recent) < c.compactAt then
              Prepared(c, msgs) == first + middle + recent
            else if answer.Success?
                 && Cost(c.count, first + [Message(Assistant, answer.value, [], "")] + recent) <= c.windowLimit then
              Prepared(c, msgs) == first + [Message(Assistant, answer.value, [], "")] + recent
            else Prepared(c, msgs) == first + recent
  {
    hide Cost, Truncated, SummaryOf, Pinned, Recent, Middle;
  }

  /** What becomes of a history that is not empty: it is left alone under the trigger; it
      gets its long tool results shortened when that is enough; else the summariser is
      asked about the shortened middle, in order, and its answer stands where the middle
      stood, unless it fails or the result is too long for the window: then nothing does. */
  ghost predicate IsPrepared(c: Config, msgs: seq<Message>, result: seq<Message>)
    requires msgs != []
  {
    var keep := if c.keepRecent <= |msgs| - 1 then c.keepRecent else |msgs| - 1;
    var first, recent := msgs[..1], msgs[|msgs| - keep..];
    var middle := Truncated(msgs[1..|msgs| - keep]);
    var answer := AnswerAbout(c, middle);
    if Cost(c.count, msgs) < c.compactAt then result == msgs
    else if Cost(c.count, first + middle + recent) < c.compactAt then result == first + middle + recent
    else if answer.Success?
         && Cost(c.count, first + [Message(Assistant, answer.value, [], "")] + recent) <= c.windowLimit then
      result == first + [Message(Assistant, answer.value, [], "")] + recent
    else result == first + recent
  }

  lemma PreparedCases(c: Config, msgs: seq<Message>)
    requires msgs != []
    ensures IsPrepared(c, msgs, Prepared(c, msgs))
  {
    hide Cost, Truncated, AnswerAbout, SummaryOf, Prepared, Pinned, Recent, Middle;
    var keep := KeepOf(c, msgs);
    var middle := Truncated(msgs[1..|msgs| - keep]);
    SplitIs(c, msgs);
    SummaryHolds(c, middle);
    CascadeIs(c, msgs, msgs[..1], middle, msgs[|msgs| - keep..], AnswerAbout(c, middle));
  }

  lemma CostOfThree(count: Counter, a: seq<Message>, b: seq<Message>, d: seq<Message>)
    ensures Cost(count, a + b + d) == Cost(count, a) + Cost(count, b) + Cost(count, d)
  {
    CostAdditive(count, a + b, d);
    CostAdditive(count, a, b);
  }

  /** The window is overrun exactly when the pinned and the recent messages overrun
      it by themselves: compaction never fails for any other reason. */
  lemma OverflowsOnlyByEnds(c: Config, msgs: seq<Message>)
    requires c.compactAt <= c.windowLimit
    ensures Cost(c.count, Prepared(c, msgs)) > c.windowLimit <==>
            Cost(c.count, Pinned(msgs)) + Cost(c.count, Recent(c, msgs)) > c.windowLimit
    ensures Cost(c.count, Prepared(c, msgs)) > c.windowLimit ==>
            Prepared(c, msgs) == Pinned(msgs) + Recent(c, msgs)
  {
    PreparedForm(c, msgs);
    CostOfThree(c.count, Pinned(msgs), Kept(c, msgs), Recent(c, msgs));
    if Evicts(c, msgs) && Kept(c, msgs) == [] {
      assert Prepared(c, msgs) == Pinned(msgs) + Recent(c, msgs);
    }
  }

  /** The first message and the most recent ones are never evicted or rewritten. */
  lemma EndsSurvive(c: Config, msgs: seq<Message>)
    requires msgs != []
    ensures var out := Prepared(c, msgs);
            var kept := if c.keepRecent <= |msgs| - 1 then c.keepRecent else |msgs| - 1;
            && out != [] && out[0] == msgs[0]
            && kept < |out| && out[|out| - kept..] == msgs[|msgs| - kept..]
  {
    PreparedForm(c, msgs);
    EndsOfThree(msgs, RecentStart(c, msgs), Kept(c, msgs), Prepared(c, msgs));
  }

  lemma EndsOfThree(msgs: seq<Message>, k: nat, x: seq<Message>, out: seq<Message>)
    requires 1 <= k <= |msgs| && out == msgs[..1] + x + msgs[k..]
    ensures out != [] && out[0] == msgs[0]
    ensures out[|out| - (|msgs| - k)..] == msgs[|msgs| - (|msgs| - k)..]
  {
  }

  /** An evicted history has at most `keepRecent + 2` messages. Compaction lengthens
      a history exactly when a summary is put in for an empty middle, and then by
      one message. */
  lemma LengthAfterPrepare(c: Config, msgs: seq<Message>)
    ensures Evicts(c, msgs) ==> |Prepared(c, msgs)| <= c.keepRecent + 2
    ensures |Prepared(c, msgs)| <= |msgs| + 1
    ensures |Prepared(c, msgs)| == |msgs| + 1 <==>
            && Evicts(c, msgs)
            && Middle(c, msgs) == []
            && var s := SummaryOf(c, []);
               s.Success? && Cost(c.count, Pinned(msgs) + [s.value] + Recent(c, msgs)) <= c.windowLimit
  {
    SplitCovers(c, msgs);
    assert |msgs| == |Pinned(msgs)| + |Middle(c, msgs)| + |Recent(c, msgs)|;
    if Middle(c, msgs) == [] {
      assert Truncated(Middle(c, msgs)) == [];
    }
  }

  /** Eviction cuts the history in front of a tool message. */
  predicate OrphansToolResult(c: Config, msgs: seq<Message>) {
    Evicts(c, msgs) && Recent(c, msgs) != [] && Recent(c, msgs)[0].role == Tool
  }

  /** On a paired history that begins with a plain message, `Prepare` yields a paired
      history exactly when eviction does not cut between a call and its answers. */
  lemma PreparePairing(c: Config, msgs: seq<Message>)
    requires Paired(msgs)
    requires msgs != [] ==> msgs[0].toolCalls == []
    ensures Paired(Prepared(c, msgs)) <==> !OrphansToolResult(c, msgs)
  {
    if Evicts(c, msgs) {
      EvictedPairing(c, msgs);
    } else {
      RetainedPairing(c, msgs);
    }
  }

  lemma RetainedPairing(c: Config, msgs: seq<Message>)
    requires Paired(msgs) && !Evicts(c, msgs)
    ensures Paired(Prepared(c, msgs))
  {
    SplitCovers(c, msgs);
    TruncationLaws(Middle(c, msgs));
    ShapeOfThree(Pinned(msgs), Middle(c, msgs), Truncated(Middle(c, msgs)), Recent(c, msgs));
    PairedByShape(msgs, Shortened(c, msgs));
  }

  lemma ShapeOfThree(p: seq<Message>, m: seq<Message>, x: seq<Message>, r: seq<Message>)
    requires SameShape(m, x)
    ensures SameShape(p + m + r, p + x + r)
  {
  }

  /** Eviction leaves nothing, or a plain summary, between the ends. */
  lemma EvictedKeepsPlain(c: Config, msgs: seq<Message>)
    requires Evicts(c, msgs)
    ensures forall i :: 0 <= i < |Kept(c, msgs)| ==> Kept(c, msgs)[i].role == Assistant && Kept(c, msgs)[i].toolCalls == []
  {
    hide Cost, Shortened, Transcript, Truncated;
  }

  lemma FirstIsPlain(msgs: seq<Message>)
    requires Paired(msgs) && (msgs != [] ==> msgs[0].toolCalls == [])
    ensures forall i :: 0 <= i < |Pinned(msgs)| ==> Pinned(msgs)[i].role != Tool && Pinned(msgs)[i].toolCalls == []
  {
  }

  lemma RecentPaired(c: Config, msgs: seq<Message>)
    requires Paired(msgs)
    ensures Paired(Recent(c, msgs)) <==> (Recent(c, msgs) == [] || Recent(c, msgs)[0].role != Tool)
  {
    if msgs != [] {
      PairedSuffix(msgs, RecentStart(c, msgs));
    }
  }

  lemma EvictedPairing(c: Config, msgs: seq<Message>)
    requires Paired(msgs) && Evicts(c, msgs)
    requires msgs != [] ==> msgs[0].toolCalls == []
    ensures Paired(Prepared(c, msgs)) <==> (Recent(c, msgs) == [] || Recent(c, msgs)[0].role != Tool)
  {
    hide Cost, Shortened, Truncated, Kept, Prepared, Evicts;
    PreparedForm(c, msgs);
    EvictedKeepsPlain(c, msgs);
    FirstIsPlain(msgs);
    RecentPaired(c, msgs);
    hide Paired, Recent, Pinned;
    PlainPrefix(Pinned(msgs) + Kept(c, msgs), Recent(c, msgs));
  }

  /** Messages that neither call nor answer tools do not affect pairing. */
  lemma {:induction false} PlainPrefix(a: seq<Message>, b: seq<Message>)
    requires forall i :: 0 <= i < |a| ==> a[i].role != Tool && a[i].toolCalls == []
    ensures Paired(a + b) <==> Paired(b)
    decreases |a|
  {
    if a == [] {
      assert a + b == b;
    } else {
      assert (a + b)[1..] == a[1..] + b;
      PlainPrefix(a[1..], b);
    }
  }
}
