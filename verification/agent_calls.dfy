/** How often one run can trouble the provider: at most one summary and one completion
    a step, each of which the retrying client attempts a bounded number of times. */
module AgentCalls {
  import opened AgentSpec
  import Compaction
  import Retry

  /** The calls the next step makes. The context is prepared, and summarised if need
      be, before the budget is looked at. */
  ghost function Asks(w: World, p: Proc): nat {
    if p.AtHead? && p.step < w.maxSteps && w.context.Some? && Compaction.Evicts(w.context.value, p.msgs) then 1
    else if p.AtComplete? then 1
    else 0
  }

  /** The attempts of the rest of a run, when the call made in state `t` is attempted
      `attempts(t)` times. */
  ghost function Attempts(w: World, task: Task, s: State, attempts: State -> nat): nat
    requires Sane(w, s.proc)
    decreases Distance(w, s.proc)
  {
    if Working(s.proc) then
      hide Tick, Distance;
      TickProgress(w, task, s);
      (if Asks(w, s.proc) > 0 then attempts(s) else 0) + Attempts(w, task, Tick(w, task, s), attempts)
    else 0
  }

  /** The calls a process may still make. */
  ghost function Quota(w: World, p: Proc): nat
    requires Sane(w, p)
  {
    match p
    case AtHead(_, _, step, _, _) => 2 * StepsLeft(w, step)
    case AtComplete(_, _, step, _, _) => 2 * StepsLeft(w, step) - 1
    case AtAppend(_, _, step, _, _, _, _) => 2 * StepsLeft(w, step + 1)
    case _ => 0
  }

  lemma AsksOnce(w: World, p: Proc)
    ensures Asks(w, p) <= 1
  {
    hide Compaction.Evicts;
  }

  lemma QuotaShrinks(w: World, task: Task, s: State)
    requires Working(s.proc) && Sane(w, s.proc)
    ensures Asks(w, s.proc) + Quota(w, Tick(w, task, s).proc) <= Quota(w, s.proc)
  {
    hide Prepare, TakeTurn, Compaction.Evicts;
  }

  lemma {:induction false} AttemptsWithinQuota(w: World, task: Task, s: State, attempts: State -> nat, most: nat)
    requires Sane(w, s.proc) && forall t :: attempts(t) <= most
    ensures Attempts(w, task, s, attempts) <= Quota(w, s.proc) * most
    decreases Distance(w, s.proc)
  {
    if Working(s.proc) {
      var t := Tick(w, task, s);
      QuotaShrinks(w, task, s);
      AttemptsWithinQuota(w, task, t, attempts, most);
      AsksOnce(w, s.proc);
      Scaled(Asks(w, s.proc), Quota(w, t.proc), Quota(w, s.proc),
             if Asks(w, s.proc) > 0 then attempts(s) else 0, most);
    }
  }

  lemma Scaled(now: nat, later: nat, quota: nat, tries: nat, most: nat)
    requires now + later <= quota && now <= 1 && tries <= if now == 1 then most else 0
    ensures tries + later * most <= quota * most
  {
    assert (now + later) * most == now * most + later * most;
    assert (now + later) * most <= quota * most;
  }

  ghost function AttemptsOfAll(w: World, tasks: seq<Task>, starts: seq<State>, attempts: State -> nat): nat
    requires |starts| == |tasks| && forall i :: 0 <= i < |starts| ==> Sane(w, starts[i].proc)
  {
    if tasks == [] then 0
    else Attempts(w, tasks[0], starts[0], attempts) + AttemptsOfAll(w, tasks[1..], starts[1..], attempts)
  }

  /** What the retrying client takes for the call made in a state. */
  ghost function AttemptsFor(services: State -> Retry.Service, maxRetries: nat): State -> nat {
    t => Retry.ServedFrom(services(t), maxRetries, 0).calls
  }

  lemma AttemptsForBounded(services: State -> Retry.Service, maxRetries: nat)
    ensures forall t :: AttemptsFor(services, maxRetries)(t) <= maxRetries + 1
  {
    forall t
      ensures AttemptsFor(services, maxRetries)(t) <= maxRetries + 1
    {
      assert AttemptsFor(services, maxRetries)(t) == Retry.ServedFrom(services(t), maxRetries, 0).calls;
    }
  }

  ghost function AllowedAttempts(n: nat, steps: nat, most: nat): nat { 2 * n * steps * most }

  lemma OneMoreRun(n: nat, steps: nat, most: nat, quota: nat)
    requires quota <= 2 * steps
    ensures quota * most + AllowedAttempts(n, steps, most) <= AllowedAttempts(n + 1, steps, most)
  {
    assert quota * most <= 2 * steps * most;
    assert 2 * (n + 1) * steps == 2 * n * steps + 2 * steps;
    assert (2 * n * steps + 2 * steps) * most == 2 * n * steps * most + 2 * steps * most;
  }

  lemma QuotaAtHead(w: World, p: Proc)
    requires w.maxSteps >= 0 && p.AtHead? && p.step >= 0
    ensures Sane(w, p) && Quota(w, p) <= 2 * w.maxSteps
  {
  }

  lemma {:induction false} AllBounded(w: World, tasks: seq<Task>, starts: seq<State>,
                                      attempts: State -> nat, most: nat)
    requires |starts| == |tasks| && w.maxSteps >= 0 && forall t :: attempts(t) <= most
    requires forall i :: 0 <= i < |starts| ==> starts[i].proc.AtHead? && starts[i].proc.step >= 0
    ensures AttemptsOfAll(w, tasks, starts, attempts) <= AllowedAttempts(|tasks|, w.maxSteps, most)
    decreases |tasks|
  {
    hide AllowedAttempts, Attempts, Quota;
    if tasks == [] {
      assert AllowedAttempts(0, w.maxSteps, most) >= 0;
    } else {
      QuotaAtHead(w, starts[0].proc);
      AttemptsWithinQuota(w, tasks[0], starts[0], attempts, most);
      AllBounded(w, tasks[1..], starts[1..], attempts, most);
      OneMoreRun(|tasks| - 1, w.maxSteps, most, Quota(w, starts[0].proc));
    }
  }

  /** Runs made one after another, durable or not: with `maxRetries` retries a call, N of
      them cost at most 2 * N * maxSteps * (maxRetries + 1) attempts, summaries included,
      wherever each starts and however its rows and budget stand. */
  lemma ProviderCallsBounded(w: World, tasks: seq<Task>, starts: seq<State>,
                             services: State -> Retry.Service, maxRetries: nat)
    requires |starts| == |tasks| && w.maxSteps >= 0
    requires forall i :: 0 <= i < |starts| ==> starts[i].proc.AtHead? && starts[i].proc.step >= 0
    ensures AttemptsOfAll(w, tasks, starts, AttemptsFor(services, maxRetries))
         <= 2 * |tasks| * w.maxSteps * (maxRetries + 1)
  {
    AttemptsForBounded(services, maxRetries);
    hide AttemptsFor, AttemptsOfAll;
    AllBounded(w, tasks, starts, AttemptsFor(services, maxRetries), maxRetries + 1);
  }
}
