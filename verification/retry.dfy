/** Retrying with exponential backoff (llm/retry.go). Durations are naturals without
    int64 overflow; a call's deadline is part of its outcome. */
module Retry {
  import opened Llm

  datatype Attempt = Answered(response: Response) | Transient(error: string) | Permanent(error: string)

  /** What the provider, the random source and the caller's context do: the outcome of
      each attempt, the number drawn after it, and whether the context is cancelled
      before an attempt or while waiting after it. */
  datatype Service = Service(
    outcome: nat -> Attempt,
    random: nat -> nat,
    cancelledBefore: nat -> bool,
    cancelledWaiting: nat -> bool)

  datatype Reply =
    | Ok(response: Response)
    | Cancelled
    | Rejected(error: string)
    | Exhausted

  function Pow2(n: nat): nat { if n == 0 then 1 else 2 * Pow2(n - 1) }

  /** The bounds on `n` waits: doubling delays, each lengthened by less than `base`. */
  ghost predicate SleptFor(base: nat, n: nat, slept: nat) {
    base * (Pow2(n) - 1) <= slept <= base * (Pow2(n) - 1) + n * (base - 1)
  }

  lemma OneMoreTime(n: nat, each: int)
    ensures (n + 1) * each == n * each + each
  {
  }

  lemma DoubledDelay(base: nat, delay: nat)
    ensures base * (2 * delay - 1) == base * (delay - 1) + base * delay
  {
    assert 2 * delay - 1 == (delay - 1) + delay;
  }

  lemma OneMoreWait(base: nat, n: nat, slept: nat, jitter: nat)
    requires SleptFor(base, n, slept) && jitter < base
    ensures SleptFor(base, n + 1, slept + base * Pow2(n) + jitter)
  {
    assert Pow2(n + 1) == 2 * Pow2(n);
    hide Pow2;
    DoubledDelay(base, Pow2(n));
    OneMoreTime(n, base - 1);
  }

  /** A drawn number is brought below the base delay. */
  function Jitter(svc: Service, k: nat, base: nat): (j: nat)
    requires base > 0
    ensures j < base
  {
    svc.random(k) % base
  }

  datatype Served = Served(reply: Reply, calls: nat)

  /** What a request comes to from a given attempt on, and the attempts it takes. */
  function ServedFrom(svc: Service, maxRetries: int, attempt: nat): (s: Served)
    ensures s.calls <= if attempt <= maxRetries then maxRetries + 1 - attempt else 0
    decreases maxRetries + 1 - attempt
  {
    if attempt > maxRetries then Served(Exhausted, 0)
    else if svc.cancelledBefore(attempt) then Served(Cancelled, 0)
    else
      match svc.outcome(attempt)
      case Answered(response) => Served(Ok(response), 1)
      case Permanent(error) => Served(Rejected(error), 1)
      case Transient(_) =>
        if attempt == maxRetries then Served(Exhausted, 1)
        else if svc.cancelledWaiting(attempt) then Served(Cancelled, 1)
        else
          var rest := ServedFrom(svc, maxRetries, attempt + 1);
          Served(rest.reply, rest.calls + 1)
  }

  /** `rand.Int63n` panics on a delay of zero, so a positive base is demanded whenever
      there is anything to wait for. The inner client is called at most `maxRetries + 1`
      times, up to the first answer or permanent error, and waits between the calls. */
  method Complete(svc: Service, maxRetries: int, base: nat)
    returns (reply: Reply, calls: nat, waits: nat, slept: nat)
    requires maxRetries > 0 ==> base > 0
    ensures Served(reply, calls) == ServedFrom(svc, maxRetries, 0)
    ensures calls <= (if maxRetries < 0 then 0 else maxRetries + 1)
    ensures waits <= calls <= waits + 1
    ensures base > 0 ==> SleptFor(base, waits, slept)
    ensures forall k :: 0 <= k < waits ==> svc.outcome(k).Transient? && !svc.cancelledBefore(k) && !svc.cancelledWaiting(k)
    ensures match reply
            case Ok(r) => calls == waits + 1 && svc.outcome(waits) == Answered(r) && !svc.cancelledBefore(waits)
            case Rejected(e) => calls == waits + 1 && svc.outcome(waits) == Permanent(e) && !svc.cancelledBefore(waits)
            case Cancelled => waits <= maxRetries && if calls == waits then svc.cancelledBefore(waits)
                              else svc.outcome(waits).Transient? && waits < maxRetries && svc.cancelledWaiting(waits)
            case Exhausted => maxRetries < 0 || (waits == maxRetries && calls == waits + 1 && svc.outcome(waits).Transient?)
  {
    calls, waits, slept := 0, 0, 0;
    var attempt := 0;
    while attempt <= maxRetries
      invariant 0 <= attempt == calls == waits
      invariant ServedFrom(svc, maxRetries, 0).reply == ServedFrom(svc, maxRetries, attempt).reply
      invariant ServedFrom(svc, maxRetries, 0).calls == ServedFrom(svc, maxRetries, attempt).calls + attempt
      invariant calls <= (if maxRetries < 0 then 0 else maxRetries + 1)
      invariant base > 0 ==> SleptFor(base, waits, slept)
      invariant attempt <= maxRetries || maxRetries < 0
      invariant forall k :: 0 <= k < waits ==> svc.outcome(k).Transient? && !svc.cancelledBefore(k) && !svc.cancelledWaiting(k)
    {
      if svc.cancelledBefore(attempt) {
        return Cancelled, calls, waits, slept;
      }
      var outcome := svc.outcome(attempt);
      calls := calls + 1;
      if outcome.Answered? {
        return Ok(outcome.response), calls, waits, slept;
      }
      if outcome.Permanent? {
        return Rejected(outcome.error), calls, waits, slept;
      }
      if attempt == maxRetries {
        break;
      }
      var delay := base * Pow2(attempt) + Jitter(svc, attempt, base);
      if svc.cancelledWaiting(attempt) {
        return Cancelled, calls, waits, slept;
      }
      OneMoreWait(base, waits, slept, Jitter(svc, attempt, base));
      slept := slept + delay;
      waits := waits + 1;
      attempt := attempt + 1;
    }
    return Exhausted, calls, waits, slept;
  }
}

/** Splitting a contract into clauses with the model (pipeline/clause_splitting.go). */
module Splitting {
  import opened Wrappers
  import opened Text
  import Retry

  const MAX_ATTEMPTS := 3

  function Unfence(s: string): string {
    TrimSuffix(TrimPrefix(TrimPrefix(s, "```json"), "```"), "```")
  }

  /** Strip a code fence, decode, and refuse an empty list. `decode` is the JSON decoder
      for an array of strings. */
  function ParseClauses(decode: string -> Option<seq<string>>, raw: string): (r: Option<seq<string>>)
    ensures r.Some? ==> |r.value| > 0
  {
    match decode(TrimSpace(Unfence(TrimSpace(raw))))
    case None => None
    case Some(texts) => if |texts| == 0 then None else Some(texts)
  }

  lemma {:induction false} TrimLeftSkips(lead: string, s: string)
    requires forall i :: 0 <= i < |lead| ==> IsSpace(lead[i])
    ensures TrimLeft(lead + s) == TrimLeft(s)
  {
    if lead == "" {
      assert lead + s == s;
    } else {
      assert (lead + s)[1..] == lead[1..] + s;
      TrimLeftSkips(lead[1..], s);
    }
  }

  lemma {:induction false} TrimRightSkips(s: string, trail: string)
    requires forall i :: 0 <= i < |trail| ==> IsSpace(trail[i])
    ensures TrimRight(s + trail) == TrimRight(s)
  {
    if trail == "" {
      assert s + trail == s;
    } else {
      assert (s + trail)[..|s + trail| - 1] == s + trail[..|trail| - 1];
      TrimRightSkips(s, trail[..|trail| - 1]);
    }
  }

  ghost predicate IsBlank(s: string) { forall i :: 0 <= i < |s| ==> IsSpace(s[i]) }

  ghost predicate HasEnds(s: string) { s != "" && !IsSpace(s[0]) && !IsSpace(s[|s| - 1]) }

  /** White space around a text that has none at its ends. */
  lemma TrimSpaceStrips(lead: string, s: string, trail: string)
    requires IsBlank(lead) && IsBlank(trail) && HasEnds(s)
    ensures TrimSpace(lead + s + trail) == s
  {
    assert lead + s + trail == lead + (s + trail);
    TrimLeftSkips(lead, s + trail);
    assert TrimLeft(s + trail) == s + trail;
    TrimRightSkips(s, trail);
  }

  ghost predicate IsArray(s: string) { |s| >= 2 && s[0] == '[' && s[|s| - 1] == ']' }

  lemma BareStays(body: string)
    requires IsArray(body)
    ensures Unfence(body) == body
  {
    assert body[|body| - 1] != '`';
  }

  lemma PlainFenceGoes(inner: string)
    requires inner != "" && inner[0] !in {'`', 'j'}
    ensures Unfence("```" + inner + "```") == inner
  {
    var s := "```" + inner + "```";
    assert s[3] == inner[0];
    assert s[3..] == inner + "```";
  }

  lemma JsonFenceGoes(inner: string)
    requires inner != "" && inner[0] != '`'
    ensures Unfence("```json" + inner + "```") == inner
  {
    var s := "```json" + inner + "```";
    assert s[7..] == inner + "```";
    assert (inner + "```")[0] == inner[0];
  }

  lemma FenceGoes(fence: string, b: string, body: string, c: string)
    requires fence in {"```", "```json"} && IsBlank(b) && IsArray(body)
    ensures Unfence(fence + (b + body + c) + "```") == b + body + c
  {
    var inner := b + body + c;
    assert inner[0] == if b == "" then '[' else b[0];
    assert inner[0] !in {'`', 'j'};
    hide Unfence;
    if fence == "```" {
      PlainFenceGoes(inner);
    } else {
      JsonFenceGoes(inner);
    }
  }

  lemma FenceHasEnds(fence: string, inner: string)
    requires fence in {"```", "```json"}
    ensures HasEnds(fence + inner + "```")
  {
    var s := fence + inner + "```";
    assert s[0] == fence[0] && s[|s| - 1] == "```"[2];
  }

  lemma ArrayHasEnds(body: string)
    requires IsArray(body)
    ensures HasEnds(body)
  {
  }

  lemma FencedReads(fence: string, a: string, b: string, body: string, c: string, d: string)
    requires fence in {"```", "```json"} && IsBlank(a) && IsBlank(b) && IsBlank(c) && IsBlank(d) && IsArray(body)
    ensures TrimSpace(Unfence(TrimSpace(a + (fence + (b + body + c) + "```") + d))) == body
  {
    hide *;
    FenceGoes(fence, b, body, c);
    ArrayHasEnds(body);
    TrimSpaceStrips(b, body, c);
    FenceHasEnds(fence, b + body + c);
    TrimSpaceStrips(a, fence + (b + body + c) + "```", d);
  }

  lemma BareReads(a: string, body: string, d: string)
    requires IsBlank(a) && IsBlank(d) && IsArray(body)
    ensures TrimSpace(Unfence(TrimSpace(a + body + d))) == body
  {
    ArrayHasEnds(body);
    TrimSpaceStrips(a, body, d);
    TrimSpaceStrips("", body, "");
    assert "" + body + "" == body;
    hide TrimSpace, Unfence;
    BareStays(body);
  }

  /** A JSON array is read alike bare, inside a code fence and inside a fence marked as
      JSON, with any white space around it; and it is accepted exactly when it decodes
      to a list that is not empty. */
  lemma FenceDoesNotShow(decode: string -> Option<seq<string>>, fence: string, a: string, b: string,
                         body: string, c: string, d: string)
    requires fence in {"```", "```json"} && IsBlank(a) && IsBlank(b) && IsBlank(c) && IsBlank(d) && IsArray(body)
    ensures var accepted := if decode(body).Some? && decode(body).value != [] then decode(body) else None;
            && ParseClauses(decode, a + (fence + (b + body + c) + "```") + d) == accepted
            && ParseClauses(decode, a + body + d) == accepted
  {
    hide TrimSpace, Unfence;
    FencedReads(fence, a, b, body, c, d);
    BareReads(a, body, d);
  }

  datatype Split = Clauses(texts: seq<string>) | LlmError | Unparsable

  /** The retrying client as the splitter uses it: how it answers each request, and how
      replies are decoded. */
  datatype Client = Client(
    decode: string -> Option<seq<string>>,
    services: nat -> Retry.Service,
    maxRetries: nat,
    base: nat)

  /** What asking comes to from a given request on. */
  function SplitFrom(client: Client, asked: nat): Split
    decreases MAX_ATTEMPTS - asked
  {
    if asked >= MAX_ATTEMPTS then Unparsable
    else
      match Retry.ServedFrom(client.services(asked), client.maxRetries, 0).reply
      case Ok(response) =>
        (match ParseClauses(client.decode, response.content)
         case None => SplitFrom(client, asked + 1)
         case Some(texts) => Clauses(texts))
      case _ => LlmError
  }

  lemma {:induction false} SplitNotEmpty(client: Client, asked: nat)
    ensures SplitFrom(client, asked).Clauses? ==> SplitFrom(client, asked).texts != []
    decreases MAX_ATTEMPTS - asked
  {
    hide Unfence, TrimSpace, Retry.ServedFrom;
    if asked < MAX_ATTEMPTS {
      SplitNotEmpty(client, asked + 1);
    }
  }

  /** The clauses of the contract, if the model yields any. */
  function Texts(client: Client): (texts: Option<seq<string>>)
    ensures texts.Some? ==> texts.value != []
  {
    SplitNotEmpty(client, 0);
    match SplitFrom(client, 0)
    case Clauses(texts) => Some(texts)
    case _ => None
  }

  lemma CallsSoFar(asked: nat, before: nat, calls: nat, maxRetries: nat)
    requires asked < MAX_ATTEMPTS && before <= asked * (maxRetries + 1) && calls <= maxRetries + 1
    ensures before + calls <= (asked + 1) * (maxRetries + 1) <= MAX_ATTEMPTS * (maxRetries + 1)
  {
    assert (asked + 1) * (maxRetries + 1) == asked * (maxRetries + 1) + (maxRetries + 1);
  }

  ghost predicate Unreadable(client: Client, reply: Retry.Reply) {
    reply.Ok? && ParseClauses(client.decode, reply.response.content).None?
  }

  /** Ask until a reply parses, at most three times; a client error ends it at once. With
      each attempt made through the retrying client, the provider is called at most
      3 * (maxRetries + 1) times. */
  method ExtractClausesFromLLM(client: Client)
    returns (result: Split, asked: nat, providerCalls: nat, ghost replies: seq<Retry.Reply>)
    requires client.maxRetries > 0 ==> client.base > 0
    ensures result == SplitFrom(client, 0)
    ensures asked == |replies| <= 3 && providerCalls <= asked * (client.maxRetries + 1)
    ensures providerCalls <= 3 * (client.maxRetries + 1)
    ensures forall a :: 0 <= a < asked - 1 ==> Unreadable(client, replies[a])
    ensures match result
            case Clauses(texts) => asked > 0 && |texts| > 0 && replies[asked - 1].Ok?
                                   && ParseClauses(client.decode, replies[asked - 1].response.content) == Some(texts)
            case LlmError => asked > 0 && !replies[asked - 1].Ok?
            case Unparsable => asked == 3 && Unreadable(client, replies[asked - 1])
  {
    hide ParseClauses;
    asked, providerCalls, replies := 0, 0, [];
    while asked < MAX_ATTEMPTS
      invariant asked == |replies| <= MAX_ATTEMPTS
      invariant providerCalls <= asked * (client.maxRetries + 1)
      invariant forall a :: 0 <= a < asked ==> Unreadable(client, replies[a])
      invariant SplitFrom(client, asked) == SplitFrom(client, 0)
    {
      var reply, calls, _, _ := Retry.Complete(client.services(asked), client.maxRetries, client.base);
      CallsSoFar(asked, providerCalls, calls, client.maxRetries);
      asked, providerCalls, replies := asked + 1, providerCalls + calls, replies + [reply];
      if !reply.Ok? {
        return LlmError, asked, providerCalls, replies;
      }
      var clauses := ParseClauses(client.decode, reply.response.content);
      if clauses.Some? {
        return Clauses(clauses.value), asked, providerCalls, replies;
      }
    }
    return Unparsable, asked, providerCalls, replies;
  }
}
