/** The events of the ledger and the names of the streams they live in.
    Words that the program upper-cases before use are held already normalised. */
module Events {
  import opened Prelude

  datatype ComplianceStatus = NotStarted | Pending | Cleared | Failed

  datatype Recommendation = Approve | Decline | Refer | OtherWord

  datatype DocumentStep =
    | PackageCreated
    | DocumentAdded(path: string)
    | DocumentFormatValidated(path: string)
    | ExtractionStarted(path: string)
    | ExtractionCompleted(path: string)
    | QualityAssessmentCompleted(path: string)
    | PackageReadyForAnalysis

  datatype Event =
    | ApplicationSubmitted(appId: string, requested: real)
    | DocumentUploadRequested(appId: string, path: string)
    | DocumentUploaded(appId: string, path: string)
    | CreditAnalysisRequested(appId: string)
    | FraudScreeningRequested(appId: string)
    | DocumentPackage(appId: string, step: DocumentStep)
    | AgentSessionStarted(agentId: string, sessionId: string)
    | AgentSessionRecovered(agentId: string, sessionId: string, recoveredFrom: string)
    | AgentContextLoaded(agentId: string, sessionId: string, modelVersion: string,
                         replayFrom: int, tokenCount: int)
    | CreditAnalysisCompleted(appId: string, agentId: string, sessionId: string,
                              creditModel: Option<string>, limit: Option<real>, credit: Option<real>)
    | FraudScreeningCompleted(appId: string, agentId: string, fraudModel: string, fraudScore: real)
    | ComplianceCheckRequested(appId: string, regulationSet: string, checks: seq<string>)
    | ComplianceRulePassed(appId: string, ruleId: string, ruleVersion: string)
    | ComplianceRuleFailed(appId: string, ruleId: string, ruleVersion: string, reason: string)
    | ComplianceCheckCompleted(appId: string, verdict: ComplianceStatus,
                               completedChecks: nat, totalChecks: nat, failedRules: set<string>)
    | DecisionRequested(appId: string)
    | DecisionGenerated(appId: string, recommendation: Recommendation, confidence: Option<real>,
                        sessions: seq<string>, frozen: Option<ComplianceStatus>,
                        assessed: Option<real>)
    | HumanReviewRequested(appId: string)
    | HumanReviewCompleted(appId: string, decision: Recommendation, override: bool,
                           overrideReason: Option<string>)
    | ApplicationApproved(appId: string, amount: real)
    | ApplicationDeclined(appId: string)

  /** `payload.get("application_id")`. */
  function AppOf(e: Event): Option<string> {
    if e.AgentSessionStarted? || e.AgentSessionRecovered? || e.AgentContextLoaded? then None
    else Some(e.appId)
  }

  predicate IsCompliance(e: Event) {
    e.ComplianceCheckRequested? || e.ComplianceRulePassed? || e.ComplianceRuleFailed? || e.ComplianceCheckCompleted?
  }

  /** The events that only the loan stream of an application carries. */
  predicate IsLoan(e: Event) {
    e.ApplicationSubmitted? || e.DocumentUploadRequested? || e.DocumentUploaded? ||
    e.CreditAnalysisRequested? || e.FraudScreeningRequested? || e.DecisionRequested? ||
    e.DecisionGenerated? || e.HumanReviewRequested? || e.HumanReviewCompleted? ||
    e.ApplicationApproved? || e.ApplicationDeclined?
  }

  predicate IsSession(e: Event) {
    e.AgentSessionStarted? || e.AgentSessionRecovered? || e.AgentContextLoaded? ||
    e.CreditAnalysisCompleted? || e.FraudScreeningCompleted?
  }

  /** The bounds the payload models put on numbers. */
  predicate InBounds(e: Event) {
    match e
    case ApplicationSubmitted(_, requested) => requested > 0.0
    case AgentContextLoaded(_, _, _, replayFrom, tokenCount) => replayFrom >= 0 && tokenCount > 0
    case CreditAnalysisCompleted(_, _, _, _, limit, credit) =>
      (limit.Some? ==> limit.value > 0.0) && (credit.Some? ==> 0.0 <= credit.value <= 1.0)
    case FraudScreeningCompleted(_, _, _, score) => 0.0 <= score <= 1.0
    case DecisionGenerated(_, _, confidence, _, _, _) => confidence.Some? ==> 0.0 <= confidence.value <= 1.0
    case ApplicationApproved(_, amount) => amount > 0.0
    case _ => true
  }

  /** A row of the `events` table as readers of the whole log see it. */
  datatype StoredEvent = StoredEvent(
    id: nat, stream: string, position: nat, globalPosition: nat,
    event: Event, causation: Option<nat>, recordedAt: int)

  function LoanStream(app: string): string { "loan-" + app }

  function ComplianceStream(app: string): string { "compliance-" + app }

  function SessionStream(agent: string, session: string): string { "agent-" + agent + "-" + session }

  function DocumentStream(app: string): string { "docpkg-" + app }

  /** Stream names of different kinds never meet, and applications do not share
      loan or compliance streams. */
  lemma StreamNames()
    ensures forall a, b {:trigger LoanStream(a), ComplianceStream(b)} :: LoanStream(a) != ComplianceStream(b)
    ensures forall a, b, c {:trigger LoanStream(a), SessionStream(b, c)} :: LoanStream(a) != SessionStream(b, c)
    ensures forall a, b, c {:trigger ComplianceStream(a), SessionStream(b, c)} ::
              ComplianceStream(a) != SessionStream(b, c)
    ensures forall a, b {:trigger LoanStream(a), DocumentStream(b)} :: LoanStream(a) != DocumentStream(b)
    ensures forall a, b {:trigger ComplianceStream(a), DocumentStream(b)} :: ComplianceStream(a) != DocumentStream(b)
    ensures forall a, b, c {:trigger DocumentStream(a), SessionStream(b, c)} ::
              DocumentStream(a) != SessionStream(b, c)
    ensures forall a, b {:trigger LoanStream(a), LoanStream(b)} :: LoanStream(a) == LoanStream(b) ==> a == b
    ensures forall a, b {:trigger ComplianceStream(a), ComplianceStream(b)} ::
              ComplianceStream(a) == ComplianceStream(b) ==> a == b
  {
    forall a { StreamInitials(a); }
    forall b, c { SessionInitial(b, c); }
    forall a, b | LoanStream(a) == LoanStream(b) ensures a == b {
      assert LoanStream(a)[5..] == a && LoanStream(b)[5..] == b;
    }
    forall a, b | ComplianceStream(a) == ComplianceStream(b) ensures a == b {
      assert ComplianceStream(a)[11..] == a && ComplianceStream(b)[11..] == b;
    }
  }

  lemma StreamInitials(a: string)
    ensures LoanStream(a)[0] == 'l' && ComplianceStream(a)[0] == 'c' && DocumentStream(a)[0] == 'd'
  {
  }

  lemma SessionInitial(a: string, s: string)
    ensures SessionStream(a, s)[0] == 'a'
  {
  }
}
