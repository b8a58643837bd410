/** The agents of the fan-out machine are the processes of AgentSpec: every step of a
    process that shares its budget is matched by at most one fan-out event. */
module AgentInFanout {
  import opened Wrappers
  import AgentSpec
  import Fanout

  ghost function StopName(stop: AgentSpec.Stop): string {
    match stop
    case Submitted => "submitted"
    case MaxSteps => "max_steps"
    case OverBudget => "budget"
  }

  /** How a result of `Run` is disposed of. */
  ghost function OutcomeOf(r: AgentSpec.RunResult): Fanout.Outcome {
    if r.finding.Some? then Fanout.Found(r.finding.value) else Fanout.Stopped(StopName(r.stop))
  }

  ghost predicate Matches(agent: Fanout.Agent, p: AgentSpec.Proc) {
    match p
    case Down => false
    case AtHead(_, _, step, _, usage) => agent == Fanout.Checking(step, usage)
    case AtComplete(_, _, step, _, usage) => agent == Fanout.Calling(step, usage)
    case AtAppend(_, _, step, _, usage, _, finding) =>
      agent == if finding.Some? then Fanout.Ended(Fanout.Found(finding.value), usage)
               else Fanout.Checking(step + 1, usage)
    case AtFinish(_, _, stepsRun, usage, stop, finding) =>
      agent == Fanout.Ended(OutcomeOf(AgentSpec.RunResult(finding, stepsRun, stop, usage)), usage)
    case Returned(Success(r)) => agent == Fanout.Ended(OutcomeOf(r), r.usage)
    case Returned(Failure(e)) => agent.Ended? && agent.outcome == Fanout.Errored(e)
  }

  /** The event that matches the next step of the process of clause `i`. */
  ghost function EventOf(w: AgentSpec.World, task: AgentSpec.Task, i: nat, s: AgentSpec.State): Option<Fanout.Event> {
    match s.proc
    case AtHead(_, _, _, _, _) => Some(Fanout.Check(i))
    case AtComplete(_, _, step, msgs, _) =>
      (match w.complete(AgentSpec.RequestFor(w, step, msgs))
       case Failure(e) => Some(Fanout.Break(i, "llm complete: " + e))
       case Success(resp) =>
         Some(Fanout.Reply(i, resp.provider, resp.model, resp.inputTokens, resp.outputTokens,
                           AgentSpec.TakeTurn(w, task, step, msgs, resp).finding)))
    case _ => None
  }

  lemma TickSimulated(cfg: Fanout.Config, f: Fanout.State, i: nat,
                      w: AgentSpec.World, task: AgentSpec.Task, s: AgentSpec.State)
    requires !w.durable && cfg.agentSteps == w.maxSteps && cfg.limits == w.limits
    requires Fanout.WellFormed(cfg, f) && i < |f.agents|
    requires AgentSpec.Working(s.proc) && Matches(f.agents[i], s.proc) && s.budget == Some(f.ledger)
    ensures var t := AgentSpec.Tick(w, task, s);
            match EventOf(w, task, i, s)
            case None => Matches(f.agents[i], t.proc) && t.budget == Some(f.ledger)
            case Some(e) =>
              && Fanout.Enabled(cfg, f, e)
              && Matches(Fanout.Next(cfg, f, e).agents[i], t.proc)
              && t.budget == Some(Fanout.Next(cfg, f, e).ledger)
  {
  }

  /** And it starts as a freshly launched agent does. */
  lemma StartSimulated(cfg: Fanout.Config, f: Fanout.State,
                       w: AgentSpec.World, task: AgentSpec.Task, id: string)
    requires !w.durable && Fanout.WellFormed(cfg, f) && Fanout.Enabled(cfg, f, Fanout.Launch)
    ensures Matches(Fanout.Next(cfg, f, Fanout.Launch).agents[f.dispatched],
                    AgentSpec.Start(w, task, AgentSpec.FRESH, id, Some(f.ledger)).proc)
  {
  }

  /** From wherever an interleaving has left the fan-out, running one agent's process to
      its return extends the interleaving: the agent ends with what `Run` returns, the
      shared ledger is the one the process leaves, and no other agent moves. */
  lemma {:induction false} RunSimulated(cfg: Fanout.Config, es: seq<Fanout.Event>, i: nat,
                                        w: AgentSpec.World, task: AgentSpec.Task, s: AgentSpec.State)
    returns (all: seq<Fanout.Event>)
    requires !w.durable && cfg.agentSteps == w.maxSteps && cfg.limits == w.limits
    requires Fanout.Legal(cfg, es) && i < |Fanout.Exec(cfg, es).agents|
    requires AgentSpec.Sane(w, s.proc) && Matches(Fanout.Exec(cfg, es).agents[i], s.proc)
    requires s.budget == Some(Fanout.Exec(cfg, es).ledger)
    ensures Fanout.Legal(cfg, all)
    ensures var f, g, end := Fanout.Exec(cfg, es), Fanout.Exec(cfg, all), AgentSpec.Drive(w, task, s);
            && |g.agents| == |f.agents| && g.agents == f.agents[i := g.agents[i]]
            && Matches(g.agents[i], end.proc) && end.budget == Some(g.ledger)
    decreases AgentSpec.Distance(w, s.proc)
  {
    hide AgentSpec.Prepare, AgentSpec.TakeTurn;
    all := es;
    if AgentSpec.Working(s.proc) {
      var f := Fanout.Exec(cfg, es);
      Fanout.ExecWellFormed(cfg, es);
      TickSimulated(cfg, f, i, w, task, s);
      var e := EventOf(w, task, i, s);
      if e.Some? {
        Fanout.Extend(cfg, es, e.value);
        Fanout.NextMovesOne(cfg, f, e.value);
        all := es + [e.value];
      }
      all := RunSimulated(cfg, all, i, w, task, AgentSpec.Tick(w, task, s));
    }
  }
}
