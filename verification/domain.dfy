/** The entities of domain/domain.go. Identifiers and timestamps the database
    invents are left out unless a property depends on them. */
module Domain {
  import opened Wrappers

  datatype ContractStatus =
    | Uploaded | Extracting | Extracted | AnalyzingClauses | ClausesExtracted
    | Analyzing | Analyzed | ReviewPending | ReviewComplete | Summarizing | Done

  datatype RiskLevel = High | Medium | Low

  function ParseRiskLevel(s: string): (r: Option<RiskLevel>)
    ensures r == Some(High) <==> s == "high"
    ensures r == Some(Medium) <==> s == "medium"
    ensures r == Some(Low) <==> s == "low"
  {
    if s == "high" then Some(High)
    else if s == "medium" then Some(Medium)
    else if s == "low" then Some(Low)
    else None
  }

  datatype Clause = Clause(id: string, sequenceNumber: int, text: string)

  datatype ClauseAnalysis = ClauseAnalysis(
    clauseId: string,
    riskLevel: Option<RiskLevel>,
    explanation: string,
    ambiguousLanguage: string,
    recommendations: string,
    status: string)

  datatype Review = Review(clauseId: string, decision: string, annotation: string)
}
