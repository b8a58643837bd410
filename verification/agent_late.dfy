/** What is still asked of the provider once the shared budget is exceeded. The budget is
    looked at before a completion but in a section of its own, and only after the context
    has been prepared, which may ask for a summary. */
module AgentLate {
  import opened Wrappers
  import opened AgentSpec
  import opened AgentFleet
  import opened Budgets
  import AgentCalls
  import Compaction
  import Fanout
  import Llm
  import Retry
  import Tokens

  /** The summary a process may ask for at the head of a step. */
  function HeadUnit(w: World, step: int): nat { if step < w.maxSteps && w.context.Some? then 1 else 0 }

  /** The calls a process may still make once the budget is exceeded: a completion whose
      check has passed, and a summary if it can still reach the head of a step. */
  function LateProc(w: World, p: Proc): nat {
    match p
    case AtHead(_, _, step, _, _) => HeadUnit(w, step)
    case AtComplete(_, _, step, _, _) => 1 + HeadUnit(w, step + 1)
    case AtAppend(_, _, step, _, _, _, finding) => if finding.None? then HeadUnit(w, step + 1) else 0
    case _ => 0
  }

  function Late(w: World, m: Member): nat {
    match m
    case Waiting => HeadUnit(w, 0)
    case At(proc, _) => LateProc(w, proc)
  }

  function LateOf(w: World): Member -> nat { m => Late(w, m) }

  /** A completion whose check has passed. */
  function PassedUnit(m: Member): nat { if m.At? && m.proc.AtComplete? then 1 else 0 }

  ghost predicate Over(st: Setting, c: Crew) { IsExceeded(st.w.limits, c.ledger) }

  lemma TickLate(w: World, task: Task, s: State)
    requires Working(s.proc) && s.budget.Some? && IsExceeded(w.limits, s.budget.value)
    ensures var t := Tick(w, task, s);
            && t.budget.Some? && IsExceeded(w.limits, t.budget.value)
            && AgentCalls.Asks(w, s.proc) + LateProc(w, t.proc) <= LateProc(w, s.proc)
            && !t.proc.AtComplete?
  {
    hide Prepare, TakeTurn, Compaction.Evicts;
  }

  lemma MoveLate(st: Setting, c: Crew, m: Move)
    requires |c.members| == |st.tasks| && CanMove(st, c, m) && Over(st, c)
    requires forall i :: c.launched <= i < |c.members| ==> c.members[i].Waiting?
    ensures var d := Moved(st, c, m);
            && Over(st, d)
            && d.calls + Fanout.Sum(LateOf(st.w), d.members) <= c.calls + Fanout.Sum(LateOf(st.w), c.members)
            && d.completions + Fanout.Sum(PassedUnit, d.members) <= c.completions + Fanout.Sum(PassedUnit, c.members)
  {
    var d := Moved(st, c, m);
    var i := if m.Launch? then c.launched else m.i;
    if m.Advance? {
      TickLate(st.w, st.tasks[i], StateOf(c, i));
    }
    hide Tick, AgentCalls.Asks, HeadUnit;
    Fanout.SumUpdate(LateOf(st.w), c.members, i, d.members[i]);
    Fanout.SumUpdate(PassedUnit, c.members, i, d.members[i]);
  }

  /** Members are launched in order, and nothing is saved before a process returns. */
  ghost predicate Orderly(st: Setting, c: Crew) {
    && |c.members| == |st.tasks|
    && (forall i :: c.launched <= i < |c.members| ==> c.members[i].Waiting?)
    && (forall i :: 0 <= i < |c.members| && c.members[i].At? && c.members[i].saved > 0 ==> c.members[i].proc.Returned?)
    && Fanout.Sum(BusyUnit, c.members) <= Fanout.Slots(st.cfg)
  }

  lemma OrderlyMove(st: Setting, c: Crew, m: Move)
    requires Orderly(st, c) && CanMove(st, c, m)
    ensures Orderly(st, Moved(st, c, m))
  {
    hide Tick, AgentCalls.Asks;
    var i := if m.Launch? then c.launched else m.i;
    Fanout.SumUpdate(BusyUnit, c.members, i, Moved(st, c, m).members[i]);
  }

  lemma {:induction false} AlwaysOrderly(st: Setting, ms: seq<Move>)
    requires Lawful(st, ms)
    ensures Orderly(st, Reached(st, ms))
    decreases |ms|
  {
    if ms == [] {
      Fanout.SumZero(BusyUnit, Assembled(st).members);
    } else {
      AlwaysOrderly(st, ms[..|ms| - 1]);
      OrderlyMove(st, Reached(st, ms[..|ms| - 1]), ms[|ms| - 1]);
    }
  }

  lemma PassedWithinSlots(st: Setting, c: Crew)
    requires Orderly(st, c)
    ensures Fanout.Sum(PassedUnit, c.members) <= Fanout.Slots(st.cfg)
  {
    Fanout.SumAtMost(PassedUnit, BusyUnit, c.members);
  }

  /** Once the budget is exceeded a slot is free of completions: that of the process which
      has recorded the last usage. */
  ghost predicate OneIsFree(st: Setting, c: Crew) {
    Over(st, c) ==> Fanout.Sum(PassedUnit, c.members) < Fanout.Slots(st.cfg)
  }

  /** Only a reply is recorded, and the process is then past its call. */
  lemma RecordsAfterCall(w: World, task: Task, s: State)
    requires Working(s.proc) && s.budget.Some?
    ensures var t := Tick(w, task, s);
            t.budget != s.budget ==> t.budget.Some? && s.proc.AtComplete? && !t.proc.AtComplete?
  {
    hide Prepare, TakeTurn, Recorded;
  }

  lemma OneIsFreeMove(st: Setting, c: Crew, m: Move)
    requires Orderly(st, c) && CanMove(st, c, m) && OneIsFree(st, c)
    ensures OneIsFree(st, Moved(st, c, m))
  {
    var d := Moved(st, c, m);
    PassedWithinSlots(st, c);
    if Over(st, c) {
      MoveLate(st, c, m);
      hide LateOf, Over, Tick, AgentCalls.Asks, Fanout.Sum;
    } else if m.Advance? {
      RecordsAfterCall(st.w, st.tasks[m.i], StateOf(c, m.i));
      Fanout.SumUpdate(PassedUnit, c.members, m.i, d.members[m.i]);
      hide Tick, AgentCalls.Asks, Fanout.Sum, IsExceeded;
    }
  }

  lemma {:induction false} OneIsAlwaysFree(st: Setting, ms: seq<Move>)
    requires Lawful(st, ms)
    ensures OneIsFree(st, Reached(st, ms))
    decreases |ms|
  {
    if ms != [] {
      OneIsAlwaysFree(st, ms[..|ms| - 1]);
      AlwaysOrderly(st, ms[..|ms| - 1]);
      OneIsFreeMove(st, Reached(st, ms[..|ms| - 1]), ms[|ms| - 1]);
    }
  }

  /** After its first `k` moves an interleaving with that many slots has exceeded its
      budget. */
  ghost predicate IsLateRun(st: Setting, ms: seq<Move>, k: nat, slots: nat) {
    && WellSet(st) && Fanout.Slots(st.cfg) == slots
    && Lawful(st, ms) && k <= |ms| && Lawful(st, ms[..k]) && Over(st, Reached(st, ms[..k]))
  }

  /** Once the shared budget is exceeded it stays exceeded. From then on there are at most
      as many completions as there are processes whose check has passed, so less than one a
      slot, and at most one summary for each process that can still reach the head of a
      step. */
  lemma {:induction false} LateCallsBounded(st: Setting, ms: seq<Move>, k: nat)
    requires Lawful(st, ms) && k <= |ms| && Lawful(st, ms[..k]) && Over(st, Reached(st, ms[..k]))
    ensures var before, now := Reached(st, ms[..k]), Reached(st, ms);
            && Over(st, now)
            && now.calls + Fanout.Sum(LateOf(st.w), now.members)
               <= before.calls + Fanout.Sum(LateOf(st.w), before.members)
            && now.completions + Fanout.Sum(PassedUnit, now.members)
               <= before.completions + Fanout.Sum(PassedUnit, before.members)
            && Fanout.Sum(PassedUnit, before.members) <= Fanout.Slots(st.cfg) - 1
            && now.completions <= before.completions + Fanout.Slots(st.cfg) - 1
    decreases |ms|
  {
    OneIsAlwaysFree(st, ms[..k]);
    if k == |ms| {
      assert ms[..k] == ms;
    } else {
      var front := ms[..|ms| - 1];
      assert front[..k] == ms[..k];
      LateCallsBounded(st, front, k);
      AlwaysOrderly(st, front);
      hide Over, Orderly, Moved, CanMove;
      MoveLate(st, Reached(st, front), ms[|ms| - 1]);
    }
  }

  // ------------------------------------------------------------ it is reached

  /** `n` clauses with a slot each, two steps an agent, a budget of one step, a model that
      only talks and, if `managed`, a context that is always summarised. */
  function LoudSetting(n: nat, managed: bool): (st: Setting)
    ensures |st.tasks| == n
  {
    var context := Compaction.Config(s => 1, 100, 0, 1, _ => Success("summary"));
    var w := World(2, false, if managed then Some(context) else None, Limits(0, 0, 1),
                   _ => Success(Llm.Response("well", [], 0, 1, "", "")),
                   _ => Failure(""), _ => Failure(""), s => s, t => "task", _ => Failure(""));
    var served := Retry.Service(_ => Retry.Answered(Llm.Response("well", [], 0, 1, "", "")),
                                _ => 0, _ => false, _ => false);
    Setting(w, seq(n, _ => Task("contract", "clause", "")),
            Fanout.Config(w.limits, n, 2, "", "", seq(n, _ => "")), _ => served, 0)
  }

  const SPENT := Ledger(1, 0, 1, 0, 1)

  /** Where a process stands after `j` steps, of which only the first finds the budget
      not yet exceeded. */
  ghost function Position(n: nat, managed: bool, j: nat): Proc {
    var st := LoudSetting(n, managed);
    var task := Task("contract", "clause", "");
    if j == 0 then Start(st.w, task, FRESH, "", Some(EMPTY)).proc
    else
      var p := Position(n, managed, j - 1);
      if Working(p) then Tick(st.w, task, FRESH.(proc := p, budget := Some(if j == 1 then EMPTY else SPENT))).proc
      else p
  }

  /** A step of a process depends on the ledger only through the check. */
  lemma SameStep(w: World, task: Task, p: Proc, l: Ledger, l': Ledger)
    requires Working(p) && (p.AtHead? ==> (IsExceeded(w.limits, l) <==> IsExceeded(w.limits, l')))
    ensures Tick(w, task, FRESH.(proc := p, budget := Some(l))).proc
         == Tick(w, task, FRESH.(proc := p, budget := Some(l'))).proc
  {
    hide Prepare, TakeTurn, IsExceeded;
  }

  /** The model answers everything with a word. */
  ghost predicate OnlyTalks(w: World) {
    forall r :: w.complete(r) == Success(Llm.Response("well", [], 0, 1, "", ""))
  }

  /** Check, reply, row: the course of one step of a talking process. */
  lemma TalkingStep(w: World, task: Task, p: Proc, l: Ledger)
    requires Working(p) && OnlyTalks(w)
    ensures var t := Tick(w, task, FRESH.(proc := p, budget := Some(l)));
            && (p.AtHead? && p.step < w.maxSteps ==>
                  (if IsExceeded(w.limits, l) then t.proc.AtFinish? else t.proc.AtComplete? && t.proc.step == p.step))
            && (p.AtComplete? ==> t.proc.AtAppend? && t.proc.step == p.step && t.proc.finding.None?)
            && (p.AtAppend? && p.finding.None? ==> t.proc.AtHead? && t.proc.step == p.step + 1)
            && t.budget == Some(if p.AtComplete? then Recorded(l, "", "", 0, 1) else l)
  {
    hide Prepare, IsExceeded, Recorded;
  }

  lemma LoudTalks(n: nat, managed: bool)
    ensures OnlyTalks(LoudSetting(n, managed).w) && LoudSetting(n, managed).w.maxSteps == 2
    ensures !IsExceeded(LoudSetting(n, managed).w.limits, EMPTY)
    ensures forall l: Ledger :: IsExceeded(LoudSetting(n, managed).w.limits, l) <==> l.steps >= 1
  {
  }

  lemma PositionNext(n: nat, managed: bool, j: nat)
    requires Working(Position(n, managed, j))
    ensures Position(n, managed, j + 1) ==
            Tick(LoudSetting(n, managed).w, Task("contract", "clause", ""),
                 FRESH.(proc := Position(n, managed, j), budget := Some(if j == 0 then EMPTY else SPENT))).proc
  {
    hide Tick, LoudSetting;
  }

  lemma StartsAtHead(n: nat, managed: bool)
    ensures Position(n, managed, 0).AtHead? && Position(n, managed, 0).step == 0
  {
    StartsThere(n, managed);
    hide Position;
  }

  /** One step from a known position. */
  lemma PositionStep(n: nat, managed: bool, j: nat)
    requires Working(Position(n, managed, j))
    ensures var p, q := Position(n, managed, j), Position(n, managed, j + 1);
            && (p.AtHead? && p.step < 2 ==> (if j > 0 then q.AtFinish? else q.AtComplete? && q.step == p.step))
            && (p.AtComplete? ==> q.AtAppend? && q.step == p.step && q.finding.None?)
            && (p.AtAppend? && p.finding.None? ==> q.AtHead? && q.step == p.step + 1)
  {
    LoudTalks(n, managed);
    PositionNext(n, managed, j);
    hide LoudSetting, Tick, OnlyTalks, IsExceeded, Position;
    TalkingStep(LoudSetting(n, managed).w, Task("contract", "clause", ""), Position(n, managed, j),
                if j == 0 then EMPTY else SPENT);
  }

  lemma PositionsAre(n: nat, managed: bool)
    ensures Position(n, managed, 0).AtHead? && Position(n, managed, 0).step == 0
    ensures Position(n, managed, 1).AtComplete? && Position(n, managed, 1).step == 0
    ensures Position(n, managed, 2).AtAppend? && Position(n, managed, 2).step == 0
    ensures Position(n, managed, 2).finding.None?
    ensures Position(n, managed, 3).AtHead? && Position(n, managed, 3).step == 1
    ensures Position(n, managed, 4).AtFinish?
  {
    hide *;
    StartsAtHead(n, managed);
    HeadWorks(Position(n, managed, 0));
    PositionStep(n, managed, 0);
    HeadWorks(Position(n, managed, 1));
    PositionStep(n, managed, 1);
    HeadWorks(Position(n, managed, 2));
    PositionStep(n, managed, 2);
    HeadWorks(Position(n, managed, 3));
    PositionStep(n, managed, 3);
  }

  lemma HeadWorks(p: Proc)
    requires p.AtHead? || p.AtComplete? || p.AtAppend?
    ensures Working(p)
  {
  }

  /** What each of the four steps asks for. */
  function AsksAt(managed: bool, j: nat): nat {
    if j == 1 || (managed && (j == 0 || j == 3)) then 1 else 0
  }

  function AsksBefore(managed: bool, j: nat): nat {
    if j == 0 then 0 else AsksBefore(managed, j - 1) + AsksAt(managed, j - 1)
  }

  function RepliesBefore(j: nat, n: nat): nat { if j <= 1 then 0 else n }

  lemma AlwaysSummarised(n: nat, managed: bool, p: Proc)
    requires p.AtHead? && p.step < 2
    ensures AgentCalls.Asks(LoudSetting(n, managed).w, p) == if managed then 1 else 0
  {
    hide Tokens.Cost;
  }

  lemma StepAt(n: nat, managed: bool, j: nat, ledger: Ledger)
    requires j < 4 && (j == 0 ==> ledger == EMPTY) && (j >= 2 ==> ledger.steps >= 1)
    ensures Working(Position(n, managed, j))
    ensures var st, s := LoudSetting(n, managed), FRESH.(proc := Position(n, managed, j), budget := Some(ledger));
            && Tick(st.w, Task("contract", "clause", ""), s).proc == Position(n, managed, j + 1)
            && AgentCalls.Asks(st.w, Position(n, managed, j)) == AsksAt(managed, j)
            && Tick(st.w, Task("contract", "clause", ""), s).budget ==
               Some(if j == 1 then Recorded(ledger, "", "", 0, 1) else ledger)
  {
    var w, task := LoudSetting(n, managed).w, Task("contract", "clause", "");
    PositionsAre(n, managed);
    LoudTalks(n, managed);
    if j == 0 || j == 3 { AlwaysSummarised(n, managed, Position(n, managed, j)); }
    hide LoudSetting, Tick, OnlyTalks, IsExceeded, Compaction.Evicts, Position;
    PositionNext(n, managed, j);
    SameStep(w, task, Position(n, managed, j), if j == 0 then EMPTY else SPENT, ledger);
    TalkingStep(w, task, Position(n, managed, j), ledger);
  }

  function Talked(k: nat): Ledger { Ledger(k, 0, k, 0, k) }

  lemma OneMoreReply(k: nat)
    ensures Recorded(Talked(k), "", "", 0, 1) == Talked(k + 1)
  {
  }

  /** All processes have made `j` steps, and the first `i` of them one more. */
  ghost predicate Swept(n: nat, managed: bool, c: Crew, j: nat, i: nat) {
    && |c.members| == n && c.launched == n && i <= n
    && c.ledger == Talked(if j == 1 then i else RepliesBefore(j, n))
    && c.calls == AsksBefore(managed, j) * n + AsksAt(managed, j) * i
    && c.completions == (if j == 1 then i else RepliesBefore(j, n))
    && forall k :: 0 <= k < n ==> c.members[k] == At(Position(n, managed, if k < i then j + 1 else j), 0)
  }

  /** The first `i` clauses are launched. */
  ghost predicate Launched(n: nat, managed: bool, c: Crew, i: nat) {
    && |c.members| == n && c.launched == i <= n && c.ledger == EMPTY && c.calls == 0 && c.completions == 0
    && forall k :: 0 <= k < n ==> c.members[k] == if k < i then At(Position(n, managed, 0), 0) else Waiting
  }

  lemma {:induction false} BusyAtMost(members: seq<Member>, k: nat)
    requires k <= |members| && forall i :: k <= i < |members| ==> members[i].Waiting?
    ensures Fanout.Sum(BusyUnit, members) <= k
  {
    if |members| > 0 {
      BusyAtMost(members[..|members| - 1], if k < |members| then k else |members| - 1);
    }
  }

  lemma {:induction false} LaunchAll(n: nat, managed: bool, i: nat) returns (ms: seq<Move>)
    requires i <= n
    ensures Lawful(LoudSetting(n, managed), ms) && Launched(n, managed, Reached(LoudSetting(n, managed), ms), i)
  {
    var st := LoudSetting(n, managed);
    if i == 0 {
      ms := [];
    } else {
      ms := LaunchAll(n, managed, i - 1);
      var c := Reached(st, ms);
      BusyAtMost(c.members, i - 1);
      hide Position;
      assert Position(n, managed, 0) == Start(st.w, st.tasks[i - 1], FRESH, "", Some(EMPTY)).proc by {
        StartsThere(n, managed);
      }
      Onward(st, ms, Launch);
      ms := ms + [Launch];
    }
  }

  lemma StartsThere(n: nat, managed: bool)
    ensures Position(n, managed, 0) ==
            Start(LoudSetting(n, managed).w, Task("contract", "clause", ""), FRESH, "", Some(EMPTY)).proc
  {
  }

  /** What one step changes. */
  lemma AdvanceIs(st: Setting, c: Crew, i: nat, p: Proc, l: Ledger)
    requires i < |c.members| == |st.tasks| && c.members[i].At? && Working(c.members[i].proc)
    requires var t := Tick(st.w, st.tasks[i], StateOf(c, i)); t.proc == p && t.budget == Some(l)
    ensures CanMove(st, c, Advance(i))
    ensures var d := Moved(st, c, Advance(i));
            && d.members == c.members[i := At(p, c.members[i].saved)] && d.launched == c.launched && d.ledger == l
            && d.calls == c.calls + AgentCalls.Asks(st.w, c.members[i].proc)
            && d.completions == c.completions + (if c.members[i].proc.AtComplete? then 1 else 0)
  {
    hide Tick, AgentCalls.Asks, Fanout.Sum;
  }

  lemma MovedIs(n: nat, managed: bool, c: Crew, j: nat, i: nat)
    requires |c.members| == n && i < n && j < 4 && c.members[i] == At(Position(n, managed, j), 0)
    requires (j == 0 ==> c.ledger == EMPTY) && (j >= 2 ==> c.ledger.steps >= 1)
    ensures CanMove(LoudSetting(n, managed), c, Advance(i))
    ensures var d := Moved(LoudSetting(n, managed), c, Advance(i));
            && d.members == c.members[i := At(Position(n, managed, j + 1), 0)] && d.launched == c.launched
            && d.ledger == (if j == 1 then Recorded(c.ledger, "", "", 0, 1) else c.ledger)
            && d.calls == c.calls + AsksAt(managed, j) && d.completions == c.completions + (if j == 1 then 1 else 0)
  {
    assert LoudSetting(n, managed).tasks[i] == Task("contract", "clause", "");
    hide LoudSetting, Position, Tick, AgentCalls.Asks, Recorded, AsksAt, Moved, CanMove;
    PositionsAre(n, managed);
    StepAt(n, managed, j, c.ledger);
    AdvanceIs(LoudSetting(n, managed), c, i, Position(n, managed, j + 1),
              if j == 1 then Recorded(c.ledger, "", "", 0, 1) else c.ledger);
  }

  lemma SweptNext(n: nat, managed: bool, c: Crew, d: Crew, j: nat, i: nat)
    requires Swept(n, managed, c, j, i) && j < 4 && i < n
    requires d.members == c.members[i := At(Position(n, managed, j + 1), 0)] && d.launched == c.launched
    requires d.ledger == (if j == 1 then Recorded(c.ledger, "", "", 0, 1) else c.ledger)
    requires d.calls == c.calls + AsksAt(managed, j) && d.completions == c.completions + (if j == 1 then 1 else 0)
    ensures Swept(n, managed, d, j, i + 1)
  {
    OneMoreReply(i);
    hide Position, Recorded, AsksAt, AsksBefore;
    assert AsksAt(managed, j) * (i + 1) == AsksAt(managed, j) * i + AsksAt(managed, j);
  }

  /** The `i`th process makes its step of round `j`. */
  lemma SweptOn(n: nat, managed: bool, c: Crew, j: nat, i: nat)
    requires Swept(n, managed, c, j, i) && j < 4 && i < n
    ensures CanMove(LoudSetting(n, managed), c, Advance(i))
    ensures Swept(n, managed, Moved(LoudSetting(n, managed), c, Advance(i)), j, i + 1)
  {
    assert c.members[i] == At(Position(n, managed, j), 0);
    assert j == 0 ==> c.ledger == EMPTY;
    assert j >= 2 ==> c.ledger.steps == n;
    MovedIs(n, managed, c, j, i);
    hide LoudSetting, Moved, CanMove, Swept;
    SweptNext(n, managed, c, Moved(LoudSetting(n, managed), c, Advance(i)), j, i);
  }

  ghost predicate HasSwept(n: nat, managed: bool, ms: seq<Move>, j: nat, i: nat) {
    Lawful(LoudSetting(n, managed), ms) && Swept(n, managed, Reached(LoudSetting(n, managed), ms), j, i)
  }

  lemma SweepOne(n: nat, managed: bool, ms: seq<Move>, j: nat, i: nat)
    requires HasSwept(n, managed, ms, j, i) && j < 4 && i < n
    ensures HasSwept(n, managed, ms + [Advance(i)], j, i + 1)
  {
    SweptOn(n, managed, Reached(LoudSetting(n, managed), ms), j, i);
    assert |Reached(LoudSetting(n, managed), ms).members| == n;
    hide Swept, LoudSetting, Moved, CanMove;
    Onward(LoudSetting(n, managed), ms, Advance(i));
  }

  lemma RoundEnds(n: nat, managed: bool, c: Crew, j: nat)
    requires Swept(n, managed, c, j, n) && j < 4
    ensures Swept(n, managed, c, j + 1, 0)
  {
    hide Position;
    assert AsksBefore(managed, j + 1) * n == AsksBefore(managed, j) * n + AsksAt(managed, j) * n;
  }

  lemma LaunchedIsSwept(n: nat, managed: bool, c: Crew)
    requires Launched(n, managed, c, n)
    ensures Swept(n, managed, c, 0, 0)
  {
    hide Position;
  }

  /** One whole round. */
  lemma Round(n: nat, managed: bool, ms: seq<Move>, j: nat) returns (all: seq<Move>)
    requires HasSwept(n, managed, ms, j, 0) && j < 4
    ensures HasSwept(n, managed, all, j + 1, 0) && ms <= all
  {
    hide LoudSetting, Swept, Lawful, Reached;
    all := SweepFrom(n, managed, ms, j, 0);
    RoundEnds(n, managed, Reached(LoudSetting(n, managed), all), j);
  }

  lemma {:induction false} SumFrom(f: Member -> nat, members: seq<Member>, first: nat, rest: nat)
    requires members != [] && f(members[0]) == first
    requires forall i :: 1 <= i < |members| ==> f(members[i]) == rest
    ensures Fanout.Sum(f, members) == first + rest * (|members| - 1)
  {
    var m := |members| - 1;
    if m == 0 {
      assert members[..0] == [];
    } else {
      SumFrom(f, members[..m], first, rest);
      assert rest * m == rest * (m - 1) + rest;
    }
  }

  /** After the first reply every other check has passed, and every process can still
      reach the head of its second step. */
  lemma AfterFirstReply(n: nat, managed: bool, c: Crew)
    requires n >= 1 && Swept(n, managed, c, 1, 1)
    ensures Over(LoudSetting(n, managed), c)
    ensures Fanout.Sum(LateOf(LoudSetting(n, managed).w), c.members) == if managed then 2 * n - 1 else n - 1
    ensures Fanout.Sum(PassedUnit, c.members) == n - 1
    ensures c.calls == (if managed then n + 1 else 1) && c.completions == 1
  {
    PositionsAre(n, managed);
    hide Position;
    SumFrom(LateOf(LoudSetting(n, managed).w), c.members, if managed then 1 else 0, if managed then 2 else 1);
    SumFrom(PassedUnit, c.members, 0, 1);
    assert AsksBefore(managed, 1) == AsksAt(managed, 0);
  }

  lemma AtTheEnd(n: nat, managed: bool, c: Crew)
    requires Swept(n, managed, c, 4, 0)
    ensures c.calls == (if managed then 3 * n else n) && c.completions == n
  {
    assert AsksBefore(managed, 1) == if managed then 1 else 0;
    assert AsksBefore(managed, 2) == if managed then 2 else 1;
    assert AsksBefore(managed, 3) == AsksBefore(managed, 2);
    assert AsksBefore(managed, 4) == if managed then 3 else 1;
    hide Position;
  }

  /** The rest of round `j` from the `i`th process on. */
  lemma {:induction false} SweepFrom(n: nat, managed: bool, ms: seq<Move>, j: nat, i: nat) returns (all: seq<Move>)
    requires HasSwept(n, managed, ms, j, i) && j < 4 && i <= n
    ensures HasSwept(n, managed, all, j, n)
    ensures ms <= all
    decreases n - i
  {
    hide LoudSetting, Swept, Lawful, Reached;
    if i == n {
      all := ms;
    } else {
      SweepOne(n, managed, ms, j, i);
      all := SweepFrom(n, managed, ms + [Advance(i)], j, i + 1);
    }
  }

  lemma ToFirstReply(n: nat, managed: bool) returns (ms: seq<Move>)
    requires n >= 1
    ensures HasSwept(n, managed, ms, 1, 1)
  {
    hide LoudSetting, Swept, Launched, Lawful, Reached;
    ms := LaunchAll(n, managed, n);
    LaunchedIsSwept(n, managed, Reached(LoudSetting(n, managed), ms));
    ms := Round(n, managed, ms, 0);
    SweepOne(n, managed, ms, 1, 0);
    ms := ms + [Advance(0)];
  }

  lemma FromFirstReply(n: nat, managed: bool, ms: seq<Move>) returns (all: seq<Move>)
    requires n >= 1 && HasSwept(n, managed, ms, 1, 1)
    ensures HasSwept(n, managed, all, 4, 0) && ms <= all
  {
    hide LoudSetting, Swept, Lawful, Reached;
    var a := SweepFrom(n, managed, ms, 1, 1);
    RoundEnds(n, managed, Reached(LoudSetting(n, managed), a), 1);
    var b := Round(n, managed, a, 2);
    all := Round(n, managed, b, 3);
  }

  /** For every number of slots both bounds are met: after the budget is exceeded every
      other slot still makes its completion, and with a context manager every process asks
      for a summary. */
  lemma LateCallsReached(n: nat, managed: bool) returns (ms: seq<Move>, k: nat)
    requires n >= 1
    ensures var st := LoudSetting(n, managed);
            && IsLateRun(st, ms, k, n) && (st.w.context.Some? <==> managed)
            && var before, now := Reached(st, ms[..k]), Reached(st, ms);
            && now.calls == before.calls + Fanout.Sum(LateOf(st.w), before.members)
            && now.completions == before.completions + Fanout.Sum(PassedUnit, before.members)
            && now.completions == before.completions + n - 1
            && now.calls == before.calls + (if managed then 2 * n - 1 else n - 1)
  {
    var st := LoudSetting(n, managed);
    assert WellSet(st) && Fanout.Slots(st.cfg) == n;
    hide LoudSetting, Swept, Lawful, Reached, Over, LateOf, WellSet, Fanout.Sum;
    var front := ToFirstReply(n, managed);
    ms := FromFirstReply(n, managed, front);
    k := |front|;
    AfterFirstReply(n, managed, Reached(st, front));
    AtTheEnd(n, managed, Reached(st, ms));
    assert ms[..k] == front;
  }

  // ----------------------------------------------- when nothing is asked late

  /** Every completion begins before the budget is exceeded. */
  ghost predicate NoLateCompletion(slots: nat) {
    forall st, ms, k :: IsLateRun(st, ms, k, slots) ==>
      Reached(st, ms).completions <= Reached(st, ms[..k]).completions
  }

  /** And so does every summary, in worlds with or without a context manager. */
  ghost predicate NoLateCall(slots: nat, managed: bool) {
    forall st, ms, k :: IsLateRun(st, ms, k, slots) && (st.w.context.Some? <==> managed) ==>
      Reached(st, ms).calls <= Reached(st, ms[..k]).calls
  }

  /** Over every interleaving no completion begins after the budget was exceeded, if and
      only if there is one slot. */
  lemma NoLateCompletionIff(slots: nat)
    requires slots >= 1
    ensures NoLateCompletion(slots) <==> slots == 1
  {
    hide Lawful, Reached, Over, WellSet, LoudSetting;
    if slots == 1 {
      forall st, ms, k | IsLateRun(st, ms, k, slots)
        ensures Reached(st, ms).completions <= Reached(st, ms[..k]).completions
      {
        LateCallsBounded(st, ms, k);
      }
    } else {
      var ms, k := LateCallsReached(slots, false);
    }
  }

  lemma UnmanagedLate(st: Setting, c: Crew)
    requires st.w.context.None?
    ensures Fanout.Sum(LateOf(st.w), c.members) <= Fanout.Sum(PassedUnit, c.members)
  {
    Fanout.SumAtMost(LateOf(st.w), PassedUnit, c.members);
  }

  /** No call at all, summaries included, begins after the budget was exceeded, if and only
      if there is one slot and no context manager. */
  lemma NoLateCallIff(slots: nat, managed: bool)
    requires slots >= 1
    ensures NoLateCall(slots, managed) <==> slots == 1 && !managed
  {
    hide Lawful, Reached, Over, WellSet, LoudSetting;
    if slots == 1 && !managed {
      forall st, ms, k | IsLateRun(st, ms, k, slots) && (st.w.context.Some? <==> managed)
        ensures Reached(st, ms).calls <= Reached(st, ms[..k]).calls
      {
        LateCallsBounded(st, ms, k);
        UnmanagedLate(st, Reached(st, ms[..k]));
      }
    } else {
      var ms, k := LateCallsReached(slots, managed);
    }
  }
}
