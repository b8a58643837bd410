/** The report input of pipeline/summarize.go: what is counted, what is quoted of each
    clause, and how long texts are cut. */
module Report {
  import opened Wrappers
  import opened Domain
  import opened Tokens
  import Analyses
  import Reviewing

  // --------------------------------------------------- token-budget truncation

  const ELLIPSIS := "\U{2026}"

  predicate Fits(count: Counter, s: string, budget: int, k: nat)
    requires k <= |s|
  {
    count(s[..k]) + count(ELLIPSIS) <= budget
  }

  /** The longest fitting prefix shorter than `k` runes, with the ellipsis. */
  function Cut(count: Counter, s: string, budget: int, k: nat): string
    requires k <= |s|
  {
    if k == 0 then ""
    else if Fits(count, s, budget, k - 1) then s[..k - 1] + ELLIPSIS
    else Cut(count, s, budget, k - 1)
  }

  function Truncated(count: Counter, s: string, budget: int): string {
    if count(s) <= budget then s else Cut(count, s, budget, |s|)
  }

  method TruncateToTokenBudget(count: Counter, s: string, budget: int) returns (r: string)
    ensures r == Truncated(count, s, budget)
  {
    if count(s) <= budget { return s; }
    var ellipsisCost := count(ELLIPSIS);
    var runes := s;
    while |runes| > 0
      invariant |runes| <= |s| && runes == s[..|runes|]
      invariant Cut(count, s, budget, |runes|) == Cut(count, s, budget, |s|)
    {
      runes := runes[..|runes| - 1];
      assert runes == s[..|runes|];
      if count(runes) + ellipsisCost <= budget {
        return runes + ELLIPSIS;
      }
    }
    return "";
  }

  lemma {:induction false} CutIsLongest(count: Counter, s: string, budget: int, k: nat)
    requires k <= |s|
    ensures var r := Cut(count, s, budget, k);
            || (r == "" && forall j :: 0 <= j < k ==> !Fits(count, s, budget, j))
            || exists j :: 0 <= j < k && Fits(count, s, budget, j) && r == s[..j] + ELLIPSIS
                 && forall i :: j < i < k ==> !Fits(count, s, budget, i)
  {
    if k > 0 && !Fits(count, s, budget, k - 1) {
      CutIsLongest(count, s, budget, k - 1);
    }
  }

  /** A text cut to a token budget: the text itself, the longest proper prefix that fits
      together with the ellipsis, or nothing when no prefix does. */
  ghost predicate IsCut(count: Counter, budget: int, s: string, r: string) {
    if count(s) <= budget then r == s
    else
      || (r == "" && forall j :: 0 <= j < |s| ==> count(s[..j]) + count("\U{2026}") > budget)
      || exists j :: && 0 <= j < |s| && count(s[..j]) + count("\U{2026}") <= budget && r == s[..j] + "\U{2026}"
                     && forall i :: j < i < |s| ==> count(s[..i]) + count("\U{2026}") > budget
  }

  /** The texts of the report are so cut; and with a subadditive counter they are within
      the budget. */
  lemma TruncationLaw(count: Counter, s: string, budget: int)
    ensures IsCut(count, budget, s, Truncated(count, s, budget))
    ensures budget >= 0 && count("") == 0 && (forall a, b :: count(a + b) <= count(a) + count(b)) ==>
              count(Truncated(count, s, budget)) <= budget
  {
    CutIsLongest(count, s, budget, |s|);
    assert forall j :: 0 <= j < |s| ==> (Fits(count, s, budget, j) <==> count(s[..j]) + count("\U{2026}") <= budget);
  }

  /** The four-runes-a-token fallback is not subadditive: whenever it cuts, the result
      is one token over the budget. */
  lemma FallbackOverrunsByOne(s: string, budget: nat)
    requires RuneQuarter(s) > budget
    ensures RuneQuarter(Truncated(RuneQuarter, s, budget)) == budget + 1
  {
    CutIsLongest(RuneQuarter, s, budget, |s|);
    assert Fits(RuneQuarter, s, budget, 4 * budget + 3);
    if Cut(RuneQuarter, s, budget, |s|) != "" {
      var j :| 0 <= j < |s| && Fits(RuneQuarter, s, budget, j)
            && Cut(RuneQuarter, s, budget, |s|) == s[..j] + ELLIPSIS
            && forall i :: j < i < |s| ==> !Fits(RuneQuarter, s, budget, i);
      assert j >= 4 * budget + 3;
    }
  }

  // ------------------------------------------------------------------- counts

  datatype RiskCounts = RiskCounts(high: nat, medium: nat, low: nat)

  datatype ReviewCounts = ReviewCounts(approved: nat, rejected: nat, overrides: nat)

  datatype ClauseInput = ClauseInput(
    sequenceNumber: int,
    gist: string,
    riskLevel: string,
    decision: string,
    annotation: string,
    recommendations: string,
    ambiguousLanguage: string)

  datatype Brief = Brief(risks: RiskCounts, reviews: ReviewCounts, inputs: seq<ClauseInput>)

  /** What the report knows of the clauses. A clause without an analysis or a review
      gets Go's zero value. */
  datatype Sources = Sources(
    analyses: map<string, ClauseAnalysis>,
    reviews: map<string, Review>,
    count: Counter,
    budget: int)

  const NO_ANALYSIS := ClauseAnalysis("", None, "", "", "", "")
  const NO_REVIEW := Review("", "", "")

  function AnalysisOf(src: Sources, c: Clause): ClauseAnalysis {
    if c.id in src.analyses then src.analyses[c.id] else NO_ANALYSIS
  }

  function ReviewOf(src: Sources, c: Clause): Review {
    if c.id in src.reviews then src.reviews[c.id] else NO_REVIEW
  }

  predicate HasRisk(src: Sources, risk: RiskLevel, c: Clause) { AnalysisOf(src, c).riskLevel == Some(risk) }

  predicate HasDecision(src: Sources, decision: string, c: Clause) { ReviewOf(src, c).decision == decision }

  predicate IsOverride(risk: Option<RiskLevel>, decision: string) {
    (risk == Some(High) && decision == Reviewing.APPROVED) || (risk == Some(Low) && decision == Reviewing.REJECTED)
  }

  predicate IsOverridden(src: Sources, c: Clause) {
    IsOverride(AnalysisOf(src, c).riskLevel, ReviewOf(src, c).decision)
  }

  function RiskName(risk: Option<RiskLevel>): string {
    match risk
    case None => "unknown"
    case Some(High) => "high"
    case Some(Medium) => "medium"
    case Some(Low) => "low"
  }

  function InputOf(src: Sources, c: Clause): ClauseInput {
    var a, r := AnalysisOf(src, c), ReviewOf(src, c);
    ClauseInput(c.sequenceNumber,
                Truncated(src.count, a.explanation, src.budget),
                RiskName(a.riskLevel),
                r.decision,
                r.annotation,
                Truncated(src.count, a.recommendations, src.budget),
                a.ambiguousLanguage)
  }

  function Inputs(src: Sources, clauses: seq<Clause>): (r: seq<ClauseInput>)
    ensures |r| == |clauses|
    ensures forall i :: 0 <= i < |r| ==> r[i] == InputOf(src, clauses[i])
  {
    seq(|clauses|, i requires 0 <= i < |clauses| => InputOf(src, clauses[i]))
  }

  /** How many of the clauses satisfy `p`. */
  ghost function CountIf(p: Clause -> bool, clauses: seq<Clause>): nat {
    if clauses == [] then 0
    else CountIf(p, clauses[..|clauses| - 1]) + (if p(clauses[|clauses| - 1]) then 1 else 0)
  }

  ghost function RiskIs(src: Sources, risk: RiskLevel): Clause -> bool { c => HasRisk(src, risk, c) }

  ghost function DecisionIs(src: Sources, decision: string): Clause -> bool { c => HasDecision(src, decision, c) }

  ghost function RiskAndDecisionAre(src: Sources, risk: RiskLevel, decision: string): Clause -> bool {
    c => HasRisk(src, risk, c) && HasDecision(src, decision, c)
  }

  ghost function Overridden(src: Sources): Clause -> bool { c => IsOverridden(src, c) }

  ghost function BriefOf(src: Sources, clauses: seq<Clause>): Brief {
    Brief(RiskCounts(CountIf(RiskIs(src, High), clauses),
                     CountIf(RiskIs(src, Medium), clauses),
                     CountIf(RiskIs(src, Low), clauses)),
          ReviewCounts(CountIf(DecisionIs(src, Reviewing.APPROVED), clauses),
                       CountIf(DecisionIs(src, Reviewing.REJECTED), clauses),
                       CountIf(Overridden(src), clauses)),
          Inputs(src, clauses))
  }

  method Quote(src: Sources, c: Clause) returns (input: ClauseInput)
    ensures input == InputOf(src, c)
    ensures QuotesAnalysis(src.count, src.budget, AnalysisOf(src, c), input)
    ensures input.sequenceNumber == c.sequenceNumber
    ensures input.decision == ReviewOf(src, c).decision && input.annotation == ReviewOf(src, c).annotation
  {
    InputQuotes(src, c);
    var analysis, review := AnalysisOf(src, c), ReviewOf(src, c);
    var gist := TruncateToTokenBudget(src.count, analysis.explanation, src.budget);
    var recs := TruncateToTokenBudget(src.count, analysis.recommendations, src.budget);
    input := ClauseInput(c.sequenceNumber, gist, RiskName(analysis.riskLevel), review.decision,
                         review.annotation, recs, analysis.ambiguousLanguage);
  }

  function Unit(b: bool): nat { if b then 1 else 0 }

  method CountRisk(rc: RiskCounts, risk: Option<RiskLevel>) returns (r: RiskCounts)
    ensures r == RiskCounts(rc.high + Unit(risk == Some(High)), rc.medium + Unit(risk == Some(Medium)),
                            rc.low + Unit(risk == Some(Low)))
  {
    r := rc;
    if risk.Some? {
      match risk.value
      case High => r := r.(high := rc.high + 1);
      case Medium => r := r.(medium := rc.medium + 1);
      case Low => r := r.(low := rc.low + 1);
    }
  }

  method CountReview(rvc: ReviewCounts, risk: Option<RiskLevel>, decision: string) returns (r: ReviewCounts)
    ensures r == ReviewCounts(rvc.approved + Unit(decision == Reviewing.APPROVED),
                              rvc.rejected + Unit(decision == Reviewing.REJECTED),
                              rvc.overrides + Unit(IsOverride(risk, decision)))
  {
    r := rvc;
    if decision == Reviewing.APPROVED {
      r := r.(approved := rvc.approved + 1);
    } else if decision == Reviewing.REJECTED {
      r := r.(rejected := rvc.rejected + 1);
    }
    if IsOverride(risk, decision) {
      r := r.(overrides := rvc.overrides + 1);
    }
  }

  /** The report on one more clause. */
  lemma BriefSnoc(src: Sources, clauses: seq<Clause>, c: Clause)
    ensures var b := BriefOf(src, clauses);
            var a, r := AnalysisOf(src, c), ReviewOf(src, c);
            && BriefOf(src, clauses + [c]).inputs == b.inputs + [InputOf(src, c)]
            && BriefOf(src, clauses + [c]).risks
               == RiskCounts(b.risks.high + Unit(a.riskLevel == Some(High)),
                             b.risks.medium + Unit(a.riskLevel == Some(Medium)),
                             b.risks.low + Unit(a.riskLevel == Some(Low)))
            && BriefOf(src, clauses + [c]).reviews
               == ReviewCounts(b.reviews.approved + Unit(r.decision == Reviewing.APPROVED),
                               b.reviews.rejected + Unit(r.decision == Reviewing.REJECTED),
                               b.reviews.overrides + Unit(IsOverride(a.riskLevel, r.decision)))
  {
    hide InputOf, AnalysisOf, ReviewOf, IsOverride;
    assert (clauses + [c])[..|clauses|] == clauses;
    assert Inputs(src, clauses + [c]) == Inputs(src, clauses) + [InputOf(src, c)];
  }

  method AddClause(src: Sources, brief: Brief, c: Clause, ghost before: seq<Clause>) returns (next: Brief)
    requires brief == BriefOf(src, before)
    ensures next == BriefOf(src, before + [c])
  {
    BriefSnoc(src, before, c);
    hide BriefOf, InputOf, AnalysisOf, ReviewOf, IsOverride;
    var rc := CountRisk(brief.risks, AnalysisOf(src, c).riskLevel);
    var rvc := CountReview(brief.reviews, AnalysisOf(src, c).riskLevel, ReviewOf(src, c).decision);
    var input := Quote(src, c);
    next := Brief(rc, rvc, brief.inputs + [input]);
  }

  method BuildInputs(src: Sources, clauses: seq<Clause>) returns (brief: Brief)
    ensures brief == BriefOf(src, clauses)
    ensures CountsEntries(brief) && |brief.inputs| == |clauses|
    ensures forall i :: 0 <= i < |clauses| ==>
              && brief.inputs[i].sequenceNumber == clauses[i].sequenceNumber
              && QuotesAnalysis(src.count, src.budget, AnalysisOf(src, clauses[i]), brief.inputs[i])
  {
    BriefQuotes(src, clauses);
    brief := Brief(RiskCounts(0, 0, 0), ReviewCounts(0, 0, 0), []);
    assert BriefOf(src, clauses[..0]) == brief;
    hide BriefOf;
    for i := 0 to |clauses|
      invariant brief == BriefOf(src, clauses[..i])
    {
      assert clauses[..i + 1] == clauses[..i] + [clauses[i]];
      brief := AddClause(src, brief, clauses[i], clauses[..i]);
    }
    assert clauses[..|clauses|] == clauses;
  }

  lemma {:induction false} CountIfSplits(p: Clause -> bool, q: Clause -> bool, r: Clause -> bool, clauses: seq<Clause>)
    requires forall c :: r(c) <==> p(c) || q(c)
    requires forall c :: !(p(c) && q(c))
    ensures CountIf(r, clauses) == CountIf(p, clauses) + CountIf(q, clauses)
  {
    if clauses != [] {
      CountIfSplits(p, q, r, clauses[..|clauses| - 1]);
    }
  }

  lemma {:induction false} CountIfMonotone(p: Clause -> bool, q: Clause -> bool, clauses: seq<Clause>)
    requires forall c :: p(c) ==> q(c)
    ensures CountIf(p, clauses) <= CountIf(q, clauses)
  {
    if clauses != [] {
      CountIfMonotone(p, q, clauses[..|clauses| - 1]);
    }
  }

  lemma {:induction false} CountIfAppend(p: Clause -> bool, a: seq<Clause>, b: seq<Clause>)
    ensures CountIf(p, a + b) == CountIf(p, a) + CountIf(p, b)
  {
    if b == [] {
      assert a + b == a;
    } else {
      assert (a + b)[..|a + b| - 1] == a + b[..|b| - 1];
      CountIfAppend(p, a, b[..|b| - 1]);
    }
  }

  function Without(b: seq<Clause>, k: nat): seq<Clause>
    requires k < |b|
  {
    b[..k] + b[k + 1..]
  }

  lemma CountIfInsert(p: Clause -> bool, a: seq<Clause>, x: Clause, d: seq<Clause>)
    ensures CountIf(p, a + [x] + d) == CountIf(p, a + d) + (if p(x) then 1 else 0)
  {
    assert (a + [x])[..|a|] == a;
    assert CountIf(p, a + [x]) == CountIf(p, a) + (if p(x) then 1 else 0);
    hide CountIf;
    CountIfAppend(p, a, d);
    CountIfAppend(p, a + [x], d);
  }

  lemma CountIfWithout(p: Clause -> bool, b: seq<Clause>, k: nat)
    requires k < |b|
    ensures CountIf(p, b) == CountIf(p, Without(b, k)) + (if p(b[k]) then 1 else 0)
  {
    hide CountIf;
    assert b == b[..k] + [b[k]] + b[k + 1..];
    CountIfInsert(p, b[..k], b[k], b[k + 1..]);
  }

  lemma MultisetWithout(b: seq<Clause>, k: nat)
    requires k < |b|
    ensures multiset(Without(b, k)) == multiset(b) - multiset{b[k]}
  {
    assert b == b[..k] + [b[k]] + b[k + 1..];
  }

  lemma FindMember(a: seq<Clause>, b: seq<Clause>, i: nat) returns (k: nat)
    requires i < |a| && multiset(a) == multiset(b)
    ensures k < |b| && b[k] == a[i]
  {
    assert a[i] in multiset(a);
    assert a[i] in b;
    k :| 0 <= k < |b| && b[k] == a[i];
  }

  lemma {:induction false} CountIfPermutes(p: Clause -> bool, a: seq<Clause>, b: seq<Clause>)
    requires multiset(a) == multiset(b)
    ensures CountIf(p, a) == CountIf(p, b)
    decreases |a|
  {
    if a == [] {
      assert |multiset(b)| == 0;
    } else {
      var k := FindMember(a, b, 0);
      CountIfWithout(p, a, 0);
      CountIfWithout(p, b, k);
      MultisetWithout(a, 0);
      MultisetWithout(b, k);
      hide CountIf, Without;
      assert |Without(a, 0)| < |a| by { WithoutIsShorter(a, 0); }
      CountIfPermutes(p, Without(a, 0), Without(b, k));
    }
  }

  lemma WithoutIsShorter(b: seq<Clause>, k: nat)
    requires k < |b|
    ensures |Without(b, k)| == |b| - 1
  {
  }

  /** Overrides are the high risks approved and the low risks rejected, never more than
      there are such risks or such decisions; and no count depends on clause order. */
  lemma CountLaws(src: Sources, clauses: seq<Clause>, permuted: seq<Clause>)
    ensures var b := BriefOf(src, clauses);
            && b.reviews.overrides ==
                 CountIf(RiskAndDecisionAre(src, High, Reviewing.APPROVED), clauses)
                 + CountIf(RiskAndDecisionAre(src, Low, Reviewing.REJECTED), clauses)
            && b.reviews.overrides <= b.risks.high + b.risks.low
            && b.reviews.overrides <= b.reviews.approved + b.reviews.rejected
    ensures multiset(permuted) == multiset(clauses) ==>
              BriefOf(src, permuted).risks == BriefOf(src, clauses).risks
              && BriefOf(src, permuted).reviews == BriefOf(src, clauses).reviews
  {
    var high := RiskIs(src, High);
    var low := RiskIs(src, Low);
    var approved := DecisionIs(src, Reviewing.APPROVED);
    var rejected := DecisionIs(src, Reviewing.REJECTED);
    var highApproved := RiskAndDecisionAre(src, High, Reviewing.APPROVED);
    var lowRejected := RiskAndDecisionAre(src, Low, Reviewing.REJECTED);
    var overridden := Overridden(src);
    CountIfSplits(highApproved, lowRejected, overridden, clauses);
    CountIfMonotone(highApproved, high, clauses);
    CountIfMonotone(lowRejected, low, clauses);
    CountIfMonotone(highApproved, approved, clauses);
    CountIfMonotone(lowRejected, rejected, clauses);
    if multiset(permuted) == multiset(clauses) {
      CountIfPermutes(high, permuted, clauses);
      CountIfPermutes(RiskIs(src, Medium), permuted, clauses);
      CountIfPermutes(low, permuted, clauses);
      CountIfPermutes(approved, permuted, clauses);
      CountIfPermutes(rejected, permuted, clauses);
      CountIfPermutes(overridden, permuted, clauses);
    }
  }

  /** The word for a risk level. */
  ghost predicate IsRiskWord(risk: Option<RiskLevel>, word: string) {
    match risk
    case None => word == "unknown"
    case Some(High) => word == "high"
    case Some(Medium) => word == "medium"
    case Some(Low) => word == "low"
  }

  /** The entry quotes an analysis: its risk, and its texts, two of them cut. */
  ghost predicate QuotesAnalysis(count: Counter, budget: int, a: ClauseAnalysis, input: ClauseInput) {
    && IsRiskWord(a.riskLevel, input.riskLevel)
    && IsCut(count, budget, a.explanation, input.gist)
    && IsCut(count, budget, a.recommendations, input.recommendations)
    && input.ambiguousLanguage == a.ambiguousLanguage
  }

  lemma InputQuotes(src: Sources, c: Clause)
    ensures var input := InputOf(src, c);
            && QuotesAnalysis(src.count, src.budget, AnalysisOf(src, c), input)
            && input.sequenceNumber == c.sequenceNumber
            && input.decision == ReviewOf(src, c).decision && input.annotation == ReviewOf(src, c).annotation
  {
    TruncationLaw(src.count, AnalysisOf(src, c).explanation, src.budget);
    TruncationLaw(src.count, AnalysisOf(src, c).recommendations, src.budget);
    hide IsCut, Truncated, AnalysisOf, ReviewOf;
  }

  ghost predicate WordIs(word: string, input: ClauseInput) { input.riskLevel == word }

  ghost predicate AnswerIs(decision: string, input: ClauseInput) { input.decision == decision }

  ghost predicate Contradicts(input: ClauseInput) {
    (input.riskLevel == "high" && input.decision == "approved")
    || (input.riskLevel == "low" && input.decision == "rejected")
  }

  /** How many entries satisfy `p`. */
  ghost function Tally(p: ClauseInput -> bool, inputs: seq<ClauseInput>): nat {
    |set k | 0 <= k < |inputs| && p(inputs[k])|
  }

  lemma TallySnoc(p: ClauseInput -> bool, inputs: seq<ClauseInput>, x: ClauseInput)
    ensures Tally(p, inputs + [x]) == Tally(p, inputs) + (if p(x) then 1 else 0)
  {
    var n := |inputs|;
    var before, after := set k | 0 <= k < n && p(inputs[k]), set k | 0 <= k < n + 1 && p((inputs + [x])[k]);
    assert after == before + (if p(x) then {n} else {});
  }

  /** The counts of a report are those of its entries. */
  ghost predicate CountsEntries(brief: Brief) {
    && brief.risks.high == Tally(x => WordIs("high", x), brief.inputs)
    && brief.risks.medium == Tally(x => WordIs("medium", x), brief.inputs)
    && brief.risks.low == Tally(x => WordIs("low", x), brief.inputs)
    && brief.reviews.approved == Tally(x => AnswerIs("approved", x), brief.inputs)
    && brief.reviews.rejected == Tally(x => AnswerIs("rejected", x), brief.inputs)
    && brief.reviews.overrides == Tally(x => Contradicts(x), brief.inputs)
  }

  lemma NoEntries(brief: Brief)
    requires brief.inputs == [] && brief.risks == RiskCounts(0, 0, 0) && brief.reviews == ReviewCounts(0, 0, 0)
    ensures CountsEntries(brief)
  {
  }

  lemma WordsOf(src: Sources, c: Clause)
    ensures IsRiskWord(AnalysisOf(src, c).riskLevel, InputOf(src, c).riskLevel)
    ensures InputOf(src, c).decision == ReviewOf(src, c).decision
  {
    hide Truncated, AnalysisOf, ReviewOf;
  }

  lemma CountsSnoc(b: Brief, next: Brief, input: ClauseInput, risk: Option<RiskLevel>, decision: string)
    requires CountsEntries(b) && IsRiskWord(risk, input.riskLevel) && input.decision == decision
    requires next.inputs == b.inputs + [input]
    requires next.risks == RiskCounts(b.risks.high + Unit(risk == Some(High)),
                                      b.risks.medium + Unit(risk == Some(Medium)),
                                      b.risks.low + Unit(risk == Some(Low)))
    requires next.reviews == ReviewCounts(b.reviews.approved + Unit(decision == Reviewing.APPROVED),
                                          b.reviews.rejected + Unit(decision == Reviewing.REJECTED),
                                          b.reviews.overrides + Unit(IsOverride(risk, decision)))
    ensures CountsEntries(next)
  {
    TallySnoc(x => WordIs("high", x), b.inputs, input);
    TallySnoc(x => WordIs("medium", x), b.inputs, input);
    TallySnoc(x => WordIs("low", x), b.inputs, input);
    TallySnoc(x => AnswerIs("approved", x), b.inputs, input);
    TallySnoc(x => AnswerIs("rejected", x), b.inputs, input);
    TallySnoc(x => Contradicts(x), b.inputs, input);
    hide Tally;
  }

  lemma EntriesSnoc(src: Sources, front: seq<Clause>, c: Clause)
    requires CountsEntries(BriefOf(src, front))
    ensures CountsEntries(BriefOf(src, front + [c]))
  {
    BriefSnoc(src, front, c);
    WordsOf(src, c);
    hide BriefOf, InputOf, AnalysisOf, ReviewOf, IsOverride, CountsEntries, Unit, IsRiskWord;
    CountsSnoc(BriefOf(src, front), BriefOf(src, front + [c]), InputOf(src, c),
               AnalysisOf(src, c).riskLevel, ReviewOf(src, c).decision);
  }

  lemma {:induction false} CountsAreOfEntries(src: Sources, clauses: seq<Clause>)
    ensures CountsEntries(BriefOf(src, clauses))
  {
    if clauses == [] {
      NoEntries(BriefOf(src, clauses));
    } else {
      hide BriefOf, CountsEntries;
      var n := |clauses| - 1;
      CountsAreOfEntries(src, clauses[..n]);
      EntriesSnoc(src, clauses[..n], clauses[n]);
      assert clauses == clauses[..n] + [clauses[n]];
    }
  }

  lemma BriefQuotes(src: Sources, clauses: seq<Clause>)
    ensures var brief := BriefOf(src, clauses);
            && CountsEntries(brief) && |brief.inputs| == |clauses|
            && forall i :: 0 <= i < |clauses| ==>
                 && brief.inputs[i].sequenceNumber == clauses[i].sequenceNumber
                 && QuotesAnalysis(src.count, src.budget, AnalysisOf(src, clauses[i]), brief.inputs[i])
  {
    CountsAreOfEntries(src, clauses);
    forall i | 0 <= i < |clauses|
      ensures var input := BriefOf(src, clauses).inputs[i];
              && input.sequenceNumber == clauses[i].sequenceNumber
              && QuotesAnalysis(src.count, src.budget, AnalysisOf(src, clauses[i]), input)
    {
      InputQuotes(src, clauses[i]);
      hide InputOf, QuotesAnalysis, CountsEntries, AnalysisOf;
    }
    hide InputOf, QuotesAnalysis, CountsEntries, AnalysisOf, CountIf;
  }

  lemma OneMoreMember(p: Clause -> bool, clauses: seq<Clause>, x: Clause)
    requires x !in clauses
    ensures (set c | c in clauses + [x] && p(c)) ==
            (set c | c in clauses && p(c)) + (if p(x) then {x} else {})
    ensures x !in (set c | c in clauses && p(c))
  {
  }

  /** A count is the number of clauses in the set it names, ids being distinct. */
  lemma {:induction false} CountIsSetSize(p: Clause -> bool, clauses: seq<Clause>)
    requires Analyses.DistinctIds(clauses)
    ensures CountIf(p, clauses) == |set c | c in clauses && p(c)|
  {
    if clauses != [] {
      var n, x := |clauses| - 1, clauses[|clauses| - 1];
      CountIsSetSize(p, clauses[..n]);
      assert clauses == clauses[..n] + [x];
      assert x !in clauses[..n];
      OneMoreMember(p, clauses[..n], x);
    }
  }

  // ------------------------------------------------------------------ sorting

  function Insert(c: Clause, sorted: seq<Clause>): seq<Clause> {
    if sorted == [] || c.sequenceNumber <= sorted[0].sequenceNumber then [c] + sorted
    else [sorted[0]] + Insert(c, sorted[1..])
  }

  /** `sort.Slice` by sequence number. */
  function SortBySequence(clauses: seq<Clause>): seq<Clause> {
    if clauses == [] then [] else Insert(clauses[0], SortBySequence(clauses[1..]))
  }

  ghost predicate Sorted(clauses: seq<Clause>) {
    forall i, j :: 0 <= i < j < |clauses| ==> clauses[i].sequenceNumber <= clauses[j].sequenceNumber
  }

  lemma {:induction false} InsertKeeps(c: Clause, sorted: seq<Clause>)
    ensures multiset(Insert(c, sorted)) == multiset(sorted) + multiset{c}
  {
    if sorted != [] && c.sequenceNumber > sorted[0].sequenceNumber {
      InsertKeeps(c, sorted[1..]);
      assert Insert(c, sorted) == [sorted[0]] + Insert(c, sorted[1..]);
      assert sorted == [sorted[0]] + sorted[1..];
      hide Insert;
    } else {
      assert Insert(c, sorted) == [c] + sorted;
    }
  }

  lemma {:induction false} InsertSorts(c: Clause, sorted: seq<Clause>)
    requires Sorted(sorted)
    ensures Sorted(Insert(c, sorted))
  {
    if sorted != [] && c.sequenceNumber > sorted[0].sequenceNumber {
      InsertSorts(c, sorted[1..]);
      InsertKeeps(c, sorted[1..]);
      var rest := Insert(c, sorted[1..]);
      forall i | 0 <= i < |rest|
        ensures sorted[0].sequenceNumber <= rest[i].sequenceNumber
      {
        assert rest[i] in multiset(rest);
        if rest[i] != c {
          assert rest[i] in sorted[1..];
        }
      }
    }
  }

  lemma {:induction false} SortSorts(clauses: seq<Clause>)
    ensures Sorted(SortBySequence(clauses))
    ensures multiset(SortBySequence(clauses)) == multiset(clauses)
  {
    if clauses != [] {
      SortSorts(clauses[1..]);
      InsertKeeps(clauses[0], SortBySequence(clauses[1..]));
      InsertSorts(clauses[0], SortBySequence(clauses[1..]));
      assert clauses == [clauses[0]] + clauses[1..];
    }
  }

  /** Clauses already in strict order are left as they are, so the report quotes each
      clause once, in strictly ascending order of its number. */
  lemma {:induction false} SortKeepsAscending(clauses: seq<Clause>)
    requires Analyses.Ascending(clauses)
    ensures SortBySequence(clauses) == clauses
  {
    if clauses != [] {
      SortKeepsAscending(clauses[1..]);
    }
  }
}
