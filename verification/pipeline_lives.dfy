/** Whole lives of a contract: a creating command and then any others, each of which
    may be cut short after any of its effects. */
module PipelineLives {
  import opened Domain
  import opened Analyses
  import opened PipelineSpec
  import opened PipelineReport
  import opened PipelineSafety
  import Reviewing

  /** One command, and how many of its effects happened before it ended or crashed. */
  datatype Step = Step(command: Command, env: Env, done: nat)

  ghost function EffectsOf(db: Db, s: Step): seq<Effect> { StageOf(s.command, db, s.env).effects }

  ghost predicate Happens(db: Db, s: Step, after: Db) {
    && Possible(s.command, db, s.env)
    && s.done <= |EffectsOf(db, s)|
    && after == ApplyAll(db, EffectsOf(db, s)[..s.done])
  }

  ghost predicate Chain(dbs: seq<Db>, steps: seq<Step>) {
    && |dbs| == |steps| + 1
    && forall i :: 0 <= i < |steps| ==> Happens(dbs[i], steps[i], dbs[i + 1])
  }

  /** Since the last step may stop anywhere, every moment of a life is the end of one. */
  ghost predicate Life(requiresReview: bool, dbs: seq<Db>, steps: seq<Step>) {
    && Chain(dbs, steps)
    && dbs[0] == Created(requiresReview)
    && forall i :: 0 <= i < |steps| ==> (Creates(steps[i].command) <==> i == 0)
  }

  lemma StepKeeps(db: Db, s: Step, after: Db)
    requires Inv(db) && Happens(db, s, after)
    requires Creates(s.command) ==> db.status == Uploaded
    ensures Inv(after) && Grows(db, after)
    ensures s.done < |EffectsOf(db, s)| ==> Guard(after, EffectsOf(db, s)[s.done])
  {
    CommandSafe(s.command, db, s.env);
    SafePrefix(db, EffectsOf(db, s), s.done);
  }

  lemma Beginning(requiresReview: bool)
    ensures Inv(Created(requiresReview))
  {
  }

  lemma {:induction false} LifeKeeps(requiresReview: bool, dbs: seq<Db>, steps: seq<Step>, i: nat, j: nat)
    requires Life(requiresReview, dbs, steps) && i <= j < |dbs|
    ensures Inv(dbs[i]) && Inv(dbs[j]) && Grows(dbs[i], dbs[j])
    decreases j
  {
    Beginning(requiresReview);
    assert Grows(dbs[j], dbs[j]);
    hide Inv, Grows, Happens, Guard;
    if j > 0 {
      LifeKeeps(requiresReview, dbs, steps, if i < j then i else i - 1, j - 1);
      LifeStep(requiresReview, dbs, steps, j - 1);
      if i < j {
        GrowsTransitive(dbs[i], dbs[j - 1], dbs[j]);
      }
    }
  }

  lemma LifeStep(requiresReview: bool, dbs: seq<Db>, steps: seq<Step>, i: nat)
    requires Life(requiresReview, dbs, steps) && i < |steps| && Inv(dbs[i])
    ensures Inv(dbs[i + 1]) && Grows(dbs[i], dbs[i + 1])
    ensures steps[i].done < |EffectsOf(dbs[i], steps[i])| ==>
              Guard(dbs[i + 1], EffectsOf(dbs[i], steps[i])[steps[i].done])
  {
    hide Inv, Grows, Happens, Guard;
    assert dbs[0].status == Uploaded;
    StepKeeps(dbs[i], steps[i], dbs[i + 1]);
  }

  /** At every moment of every life the status and the data agree, and from one moment
      to any later one nothing is taken back. */
  lemma StatusAndData(requiresReview: bool, dbs: seq<Db>, steps: seq<Step>)
    requires Life(requiresReview, dbs, steps)
    ensures forall i :: 0 <= i < |dbs| ==> Inv(dbs[i])
    ensures forall i, j :: 0 <= i <= j < |dbs| ==> Grows(dbs[i], dbs[j])
  {
    forall i, j | 0 <= i <= j < |dbs|
      ensures Inv(dbs[i]) && Grows(dbs[i], dbs[j])
    {
      LifeKeeps(requiresReview, dbs, steps, i, j);
    }
    forall i | 0 <= i < |dbs|
      ensures Inv(dbs[i])
    {
      LifeKeeps(requiresReview, dbs, steps, i, i);
    }
  }

  // ---------------------------------------------------------------- review gate

  /** Whenever in any life the report model is about to be asked, every clause has an
      analysis and, if the contract was created for review, a stored decision; and the
      request carries each clause once, in order, with its decision, its newest analysis
      (the successful one where there is one) cut to the token budget, and right counts. */
  lemma ReviewGate(requiresReview: bool, dbs: seq<Db>, steps: seq<Step>, i: nat)
    requires Life(requiresReview, dbs, steps) && i < |steps|
    requires steps[i].done < |EffectsOf(dbs[i], steps[i])|
    requires EffectsOf(dbs[i], steps[i])[steps[i].done].AskSummary?
    ensures var db := dbs[i + 1];
            var brief := EffectsOf(dbs[i], steps[i])[steps[i].done].brief;
            && db.clauses != [] && IsReport(db, steps[i].env, brief)
            && forall k :: 0 <= k < |db.clauses| ==>
                 && brief.inputs[k].sequenceNumber == k + 1
                 && RowsOf(db.analyses, db.clauses[k].id) != []
                 && Quotes(db, db.clauses[k], brief.inputs[k])
                 && (requiresReview ==>
                       && IsReviewed(db, db.clauses[k].id)
                       && brief.inputs[k].decision in {Reviewing.APPROVED, Reviewing.REJECTED})
  {
    LifeKeeps(requiresReview, dbs, steps, 0, i);
    LifeKeeps(requiresReview, dbs, steps, 0, i + 1);
    LifeStep(requiresReview, dbs, steps, i);
    AskIsDecided(dbs[i + 1], EffectsOf(dbs[i], steps[i])[steps[i].done]);
    CommandAsks(steps[i].command, dbs[i], steps[i].env);
    AskedAt(dbs[i], steps[i].env, EffectsOf(dbs[i], steps[i]), steps[i].done);
    BriefIsReport(dbs[i + 1], steps[i].env);
  }

  lemma AskIsDecided(db: Db, e: Effect)
    requires Inv(db) && e.AskSummary? && MayAsk(db, e)
    ensures forall k :: 0 <= k < |db.clauses| ==>
              && RowsOf(db.analyses, db.clauses[k].id) != []
              && (db.requiresReview ==>
                    && IsReviewed(db, db.clauses[k].id)
                    && e.brief.inputs[k].decision in {Reviewing.APPROVED, Reviewing.REJECTED})
  {
    forall k | 0 <= k < |db.clauses|
      ensures RowsOf(db.analyses, db.clauses[k].id) != []
      ensures db.requiresReview ==>
                IsReviewed(db, db.clauses[k].id)
                && e.brief.inputs[k].decision in {Reviewing.APPROVED, Reviewing.REJECTED}
    {
      assert db.clauses[k] in db.clauses;
      assert Quotes(db, db.clauses[k], e.brief.inputs[k]);
    }
  }

  /** A review session leaves earlier decisions alone and adds one per remaining clause,
      in order, as far as the input goes. It returns exactly when the input holds enough
      decisions, and that is exactly when a resume is let through. */
  lemma ReviewThenResume(db: Db, env: Env, later: Env)
    requires Inv(db) && db.status == ReviewPending
    ensures var stage := ReviewStage(db, env);
            var after := ApplyAll(db, stage.effects);
            var given := Reviewing.Readings(env.lines, 0, Reviewing.Outside);
            var n := |db.reviews|;
            && (stage.ok <==> |given| >= |Todo(db)|)
            && after == db.(reviews := after.reviews)
            && |after.reviews| == n + (if |given| < |Todo(db)| then |given| else |Todo(db)|)
            && after.reviews[..n] == db.reviews
            && (forall i :: n <= i < |after.reviews| ==>
                  && after.reviews[i].clauseId == Todo(db)[i - n].id
                  && Reviewing.Says(after.reviews[i], given[i - n]))
            && (Todo(after) == [] <==> stage.ok)
            && (ResumeStage(after, later).effects != [] <==> stage.ok)
  {
    var session := Reviewing.RunSession(Todo(db), env.lines, 0);
    Reviewing.SessionOutcome(Todo(db), env.lines, 0);
    SessionReviewsOk(db, session.saved);
    ReviewsSafe(db, session.saved);
    RemainingAfter(db, session.saved);
  }

  lemma RemainingAfter(db: Db, saved: seq<Review>)
    requires Inv(db) && |saved| <= |Todo(db)|
    requires forall i :: 0 <= i < |saved| ==> saved[i].clauseId == Todo(db)[i].id
    ensures Todo(db.(reviews := db.reviews + saved)) == [] <==> |saved| == |Todo(db)|
  {
    var before, after := ReviewedIds(db.reviews), ReviewedIds(db.reviews + saved);
    ReviewedIdsAppend(db.reviews, saved);
    Reviewing.UnreviewedMeans(db.clauses, before);
    Reviewing.UnreviewedMeans(db.clauses, after);
    UnreviewedDistinct(db.clauses, before);
    var todo, left := Todo(db), Reviewing.Unreviewed(db.clauses, after);
    if |saved| < |todo| {
      var c := todo[|saved|];
      assert c in todo;
      assert c.id !in ReviewedIds(saved);
      assert c in left;
    } else {
      forall c | c in db.clauses
        ensures c.id in after
      {
        if c in todo {
          var i :| 0 <= i < |todo| && todo[i] == c;
          assert saved[i].clauseId == c.id;
        }
      }
    }
  }
}
