/** The loan application aggregate: its state machine and its validations. */
module LoanAggregate {
  import opened Prelude
  import opened Events
  import opened Replaying

  datatype LoanStatus =
    | Empty
    | Submitted
    | AwaitingAnalysis
    | PendingDecision
    | ApprovedPendingHuman
    | DeclinedPendingHuman
    | FinalApproved
    | FinalDeclined

  datatype Loan = Loan(
    appId: Option<string>, status: LoanStatus, requested: Option<real>, assessed: Option<real>,
    compliance: Option<ComplianceStatus>, recommendation: Option<Recommendation>,
    finalDecision: Option<Recommendation>, seenReview: bool, sessions: set<string>)

  const NEW_LOAN := Loan(None, Empty, None, None, None, None, None, false, {})

  predicate IsTerminal(s: LoanStatus) { s.FinalApproved? || s.FinalDeclined? }

  predicate IsPendingHuman(s: LoanStatus) {
    s.PendingDecision? || s.ApprovedPendingHuman? || s.DeclinedPendingHuman?
  }

  /** `validate_application_approval`: the live status counts if one is given,
      the frozen one otherwise. */
  function ValidateApproval(l: Loan, amount: real, live: Option<ComplianceStatus>): Result<Loan, Error> {
    var effective := if live.Some? then live else l.compliance;
    if effective != Some(Cleared) then Err(DomainError)
    else if l.assessed.Some? && amount > l.assessed.value then Err(DomainError)
    else Ok(l.(compliance := effective))
  }

  function StatusAfter(r: Recommendation): LoanStatus {
    match r
    case Approve => ApprovedPendingHuman
    case Decline => DeclinedPendingHuman
    case _ => PendingDecision
  }

  predicate DecisionApplies(l: Loan, e: Event)
    requires e.DecisionGenerated?
  {
    && (l.status.AwaitingAnalysis? || IsPendingHuman(l.status))
    && InBounds(e)
    && !e.recommendation.OtherWord?
    && (e.confidence.Some? && e.confidence.value < 0.6 ==> e.recommendation.Refer?)
    && e.sessions != []
    && (e.recommendation.Approve? ==> (if e.frozen.Some? then e.frozen else l.compliance) == Some(Cleared))
  }

  function AfterDecision(l: Loan, e: Event): Loan
    requires e.DecisionGenerated?
  {
    l.(recommendation := Some(e.recommendation),
       compliance := if e.frozen.Some? then e.frozen else l.compliance,
       assessed := if e.assessed.Some? then e.assessed else l.assessed,
       sessions := l.sessions + (set s | s in e.sessions),
       status := StatusAfter(e.recommendation))
  }

  /** Applying one event. */
  function Step(l: Loan, e: Event): Result<Loan, Error> {
    match e
    case ApplicationSubmitted(app, requested) =>
      if l.status.Empty? && requested > 0.0
      then Ok(l.(appId := Some(app), requested := Some(requested), status := Submitted))
      else Err(DomainError)
    case CreditAnalysisRequested(_) =>
      if l.status.Submitted? || l.status.AwaitingAnalysis? then Ok(l.(status := AwaitingAnalysis))
      else Err(DomainError)
    case DecisionGenerated(_, _, _, _, _, _) =>
      if DecisionApplies(l, e) then Ok(AfterDecision(l, e)) else Err(DomainError)
    case HumanReviewCompleted(_, decision, override, reason) =>
      if !IsPendingHuman(l.status) || (override && reason.GetOr("") == "") then Err(DomainError)
      else Ok(l.(finalDecision := Some(decision), seenReview := true))
    case ApplicationApproved(_, amount) =>
      if !IsPendingHuman(l.status) || !InBounds(e) || !l.seenReview then Err(DomainError)
      else if ValidateApproval(l, amount, None).Err? then Err(DomainError)
      else Ok(ValidateApproval(l, amount, None).value.(finalDecision := Some(Approve), status := FinalApproved))
    case ApplicationDeclined(_) =>
      if !IsPendingHuman(l.status) || !l.seenReview then Err(DomainError)
      else Ok(l.(finalDecision := Some(Decline), status := FinalDeclined))
    case _ => Ok(l)
  }

  function ReplayLoan(events: seq<Event>): Result<Loan, Error> {
    Replay(Step, NEW_LOAN, events)
  }

  /* ---------- the laws of replayed loans ---------- */

  /** What every replayed loan satisfies: a loan that awaits a human was decided on
      contributing sessions, a recommended approval was cleared, and a final state
      had a review, an approved one also clearance. */
  predicate Lawful(l: Loan) {
    && (l.status.Empty? <==> l.requested.None?)
    && (IsPendingHuman(l.status) || IsTerminal(l.status) ==> l.recommendation.Some? && l.sessions != {})
    && (IsPendingHuman(l.status) ==> l.status == StatusAfter(l.recommendation.value))
    && (l.status.ApprovedPendingHuman? ==> l.compliance == Some(Cleared))
    && (l.status.FinalApproved? ==>
          l.compliance == Some(Cleared) && l.seenReview && l.finalDecision == Some(Approve))
    && (l.status.FinalDeclined? ==> l.seenReview && l.finalDecision == Some(Decline))
  }

  lemma StepKeepsLawful(l: Loan, e: Event)
    requires Lawful(l) && Step(l, e).Ok?
    ensures Lawful(Step(l, e).value)
  {
    if e.DecisionGenerated? { assert e.sessions[0] in Step(l, e).value.sessions; }
  }

  lemma {:induction false} ReplayedIsLawful(events: seq<Event>)
    requires ReplayLoan(events).Ok?
    ensures Lawful(ReplayLoan(events).value)
  {
    if events != [] {
      ReplayedIsLawful(events[..|events| - 1]);
      StepKeepsLawful(ReplayLoan(events[..|events| - 1]).value, events[|events| - 1]);
    }
  }

  /** A final loan is final: whatever still applies after it changes nothing. */
  lemma {:induction false} FinalStatesStay(prefix: seq<Event>, whole: seq<Event>)
    requires prefix <= whole && ReplayLoan(whole).Ok?
    ensures ReplayLoan(prefix).Ok?
    ensures IsTerminal(ReplayLoan(prefix).value.status) ==> ReplayLoan(whole) == ReplayLoan(prefix)
  {
    if |prefix| < |whole| {
      var before := whole[..|whole| - 1];
      assert prefix <= before;
      FinalStatesStay(prefix, before);
    } else {
      assert prefix == whole;
    }
  }

  predicate ApprovalWithin(e: Event, assessed: Option<real>) {
    e.ApplicationApproved? && e.amount > 0.0 && (assessed.Some? ==> e.amount <= assessed.value)
  }

  /** An approved loan holds one approval event, for an amount within its assessed limit. */
  lemma {:induction false} ApprovalsRespectTheLimit(events: seq<Event>)
    requires ReplayLoan(events).Ok? && ReplayLoan(events).value.status.FinalApproved?
    ensures exists i :: 0 <= i < |events| && ApprovalWithin(events[i], ReplayLoan(events).value.assessed)
                        && forall j | 0 <= j < |events| && j != i :: !events[j].ApplicationApproved?
  {
    var n := |events| - 1;
    var before, e := events[..n], events[n];
    var l := ReplayLoan(before).value;
    if l.status.FinalApproved? {
      ApprovalsRespectTheLimit(before);
      var i :| 0 <= i < n && ApprovalWithin(before[i], l.assessed)
               && forall j | 0 <= j < n && j != i :: !before[j].ApplicationApproved?;
      assert events[i] == before[i];
      assert forall j | 0 <= j < n :: events[j] == before[j];
    } else {
      assert ApprovalWithin(events[n], l.assessed);
      NoApprovalBefore(before);
      assert forall j | 0 <= j < n :: events[j] == before[j];
    }
  }

  lemma {:induction false} NoApprovalBefore(events: seq<Event>)
    requires ReplayLoan(events).Ok? && !ReplayLoan(events).value.status.FinalApproved?
    ensures forall j | 0 <= j < |events| :: !events[j].ApplicationApproved?
  {
    if events != [] {
      var before := events[..|events| - 1];
      if ReplayLoan(before).value.status.FinalApproved? { FinalStatesStay(before, events); }
      NoApprovalBefore(before);
      assert forall j | 0 <= j < |before| :: events[j] == before[j];
    }
  }

  /* ---------- what a loan tells of its events, in their own words ---------- */

  function IsSubmission(): Event -> bool { (e: Event) => e.ApplicationSubmitted? }

  function IsAnalysisRequest(): Event -> bool { (e: Event) => e.CreditAnalysisRequested? }

  function IsDecision(): Event -> bool { (e: Event) => e.DecisionGenerated? }

  function IsDecisionOn(session: string): Event -> bool {
    (e: Event) => e.DecisionGenerated? && session in e.sessions
  }

  function IsReview(): Event -> bool { (e: Event) => e.HumanReviewCompleted? }

  function IsApproval(): Event -> bool { (e: Event) => e.ApplicationApproved? }

  function IsDecline(): Event -> bool { (e: Event) => e.ApplicationDeclined? }

  /** The status, from the kinds of events alone. */
  lemma {:induction false} StatusTellsTheEvents(events: seq<Event>)
    requires ReplayLoan(events).Ok?
    ensures var l, ended := ReplayLoan(events).value, Has(events, IsApproval()) || Has(events, IsDecline());
            && (l.status.Empty? <==> !Has(events, IsSubmission()))
            && (l.status.FinalApproved? <==> Has(events, IsApproval()))
            && (l.status.FinalDeclined? <==> Has(events, IsDecline()))
            && (IsPendingHuman(l.status) <==> Has(events, IsDecision()) && !ended)
            && (l.status.AwaitingAnalysis? <==> Has(events, IsAnalysisRequest()) && !Has(events, IsDecision()))
            && (l.seenReview <==> Has(events, IsReview()))
  {
    if events != [] {
      var before, e := events[..|events| - 1], events[|events| - 1];
      assert events == before + [e];
      StatusTellsTheEvents(before);
      HasMore(before, e, IsSubmission());
      HasMore(before, e, IsAnalysisRequest());
      HasMore(before, e, IsDecision());
      HasMore(before, e, IsReview());
      HasMore(before, e, IsApproval());
      HasMore(before, e, IsDecline());
      KindsTell(ReplayLoan(before).value, e);
    }
  }

  /** What kind of event that applies leads to which status. */
  lemma KindsTell(l: Loan, e: Event)
    requires Step(l, e).Ok?
    ensures var l' := Step(l, e).value;
            && (l'.status.Empty? <==> l.status.Empty? && !e.ApplicationSubmitted?)
            && (l'.status.FinalApproved? <==> l.status.FinalApproved? || e.ApplicationApproved?)
            && (l'.status.FinalDeclined? <==> l.status.FinalDeclined? || e.ApplicationDeclined?)
            && (IsPendingHuman(l'.status) <==>
                  (IsPendingHuman(l.status) || e.DecisionGenerated?)
                  && !e.ApplicationApproved? && !e.ApplicationDeclined?)
            && (l'.status.AwaitingAnalysis? <==>
                  (l.status.AwaitingAnalysis? || e.CreditAnalysisRequested?) && !e.DecisionGenerated?)
            && (l'.seenReview <==> l.seenReview || e.HumanReviewCompleted?)
            && (e.ApplicationApproved? || e.ApplicationDeclined? ==> IsPendingHuman(l.status))
            && (e.DecisionGenerated? ==> l.status.AwaitingAnalysis? || IsPendingHuman(l.status))
            && (e.CreditAnalysisRequested? ==> l.status.Submitted? || l.status.AwaitingAnalysis?)
  {
  }

  /** The last decision of a loan, if there is one. */
  function LastDecision(events: seq<Event>): (d: Option<Event>)
    ensures d.Some? ==> d.value.DecisionGenerated?
  {
    if events == [] then None
    else
      var e := events[|events| - 1];
      if e.DecisionGenerated? then Some(e) else LastDecision(events[..|events| - 1])
  }

  /** What a loan holds of its decisions: the last one's recommendation and what that one
      froze, and every session decided on. */
  lemma {:induction false} LoanTellsItsDecisions(events: seq<Event>, session: string)
    requires ReplayLoan(events).Ok?
    ensures var l, d := ReplayLoan(events).value, LastDecision(events);
            && l.recommendation == (if d.Some? then Some(d.value.recommendation) else None)
            && (session in l.sessions <==> Has(events, IsDecisionOn(session)))
            && (d.Some? && d.value.frozen.Some? ==> l.compliance == d.value.frozen)
            && (d.Some? && d.value.assessed.Some? ==> l.assessed == d.value.assessed)
  {
    if events != [] {
      var before, e := events[..|events| - 1], events[|events| - 1];
      assert events == before + [e];
      LoanTellsItsDecisions(before, session);
      HasMore(before, e, IsDecisionOn(session));
      DecisionTells(ReplayLoan(before).value, e, session);
    }
  }

  lemma DecisionTells(l: Loan, e: Event, session: string)
    requires Step(l, e).Ok?
    ensures var l' := Step(l, e).value;
            && (session in l'.sessions <==> session in l.sessions || IsDecisionOn(session)(e))
            && (!e.DecisionGenerated? ==>
                  l'.recommendation == l.recommendation && l'.compliance == l.compliance && l'.assessed == l.assessed)
            && (e.DecisionGenerated? ==>
                  && l'.recommendation == Some(e.recommendation)
                  && (e.frozen.Some? ==> l'.compliance == e.frozen)
                  && (e.assessed.Some? ==> l'.assessed == e.assessed))
  {
  }

  /** And of its submission: whose it is and for how much. */
  lemma {:induction false} LoanTellsItsSubmission(events: seq<Event>, i: nat)
    requires ReplayLoan(events).Ok? && i < |events| && events[i].ApplicationSubmitted?
    ensures var l := ReplayLoan(events).value;
            l.requested == Some(events[i].requested) && l.appId == Some(events[i].appId) && events[i].requested > 0.0
  {
    var before, e := events[..|events| - 1], events[|events| - 1];
    if i < |before| {
      LoanTellsItsSubmission(before, i);
      StatusTellsTheEvents(before);
      assert IsSubmission()(before[i]);
    }
  }

  /** Every decision in a replayable loan names its sessions, refers below 0.6, and approves
      only on a compliance status that was CLEARED. */
  lemma {:induction false} ReplayedDecisionsAreSound(events: seq<Event>, i: nat)
    requires ReplayLoan(events).Ok? && i < |events| && events[i].DecisionGenerated?
    ensures var e := events[i];
            && e.sessions != [] && !e.recommendation.OtherWord?
            && (e.confidence.Some? ==> 0.0 <= e.confidence.value <= 1.0)
            && (e.confidence.Some? && e.confidence.value < 0.6 ==> e.recommendation.Refer?)
            && (e.recommendation.Approve? && e.frozen.Some? ==> e.frozen == Some(Cleared))
            && Has(events[..i], IsAnalysisRequest())
  {
    var before := events[..|events| - 1];
    if i < |events| - 1 {
      ReplayedDecisionsAreSound(before, i);
      assert events[..i] == before[..i];
    } else {
      StatusTellsTheEvents(before);
      if Has(before, IsDecision()) { ReplayedDecisionFollowsRequest(before); }
    }
  }

  /** Every review in a replayable loan comes while a decision waits, and an override has its
      reason; every outcome comes after a review, and an approval is for a positive amount. */
  lemma {:induction false} ReplayedReviewsAreSound(events: seq<Event>, i: nat)
    requires ReplayLoan(events).Ok? && i < |events|
    ensures var e, before := events[i], events[..i];
            && (e.HumanReviewCompleted? ==>
                  Has(before, IsDecision()) && (e.override ==> e.overrideReason.Some? && e.overrideReason.value != ""))
            && (e.ApplicationApproved? || e.ApplicationDeclined? ==>
                  Has(before, IsReview()) && !Has(before, IsApproval()) && !Has(before, IsDecline()))
            && (e.ApplicationApproved? ==> e.amount > 0.0)
  {
    var before := events[..|events| - 1];
    if i < |events| - 1 {
      ReplayedReviewsAreSound(before, i);
      assert events[..i] == before[..i];
    } else {
      StatusTellsTheEvents(before);
    }
  }

  lemma {:induction false} ReplayedDecisionFollowsRequest(events: seq<Event>)
    requires ReplayLoan(events).Ok? && Has(events, IsDecision())
    ensures Has(events, IsAnalysisRequest())
    decreases events
  {
    var before, e := events[..|events| - 1], events[|events| - 1];
    assert events == before + [e];
    HasMore(before, e, IsDecision());
    HasMore(before, e, IsAnalysisRequest());
    if Has(before, IsDecision()) { ReplayedDecisionFollowsRequest(before); } else { StatusTellsTheEvents(before); }
  }

  /* ---------- validation of new work ---------- */

  predicate CanRecordAnalysis(l: Loan) { !l.status.Empty? && !IsTerminal(l.status) }

  /** One contributing session: loaded, with an analysis of this application. */
  predicate Contributes(l: Loan, events: seq<Event>) {
    && events != []
    && (exists i | 0 <= i < |events| :: events[i].AgentContextLoaded?)
    && (exists i | 0 <= i < |events| ::
          (events[i].CreditAnalysisCompleted? || events[i].FraudScreeningCompleted?)
          && events[i].appId == l.appId.GetOr(""))
  }

  predicate SessionsContribute(l: Loan, sessions: seq<string>, loaded: seq<seq<Event>>)
    requires |loaded| == |sessions|
  {
    && sessions != []
    && (forall i, j | 0 <= i < j < |sessions| :: sessions[i] != sessions[j])
    && (forall i | 0 <= i < |loaded| :: Contributes(l, loaded[i]))
  }

  function ValidateDecision(l: Loan, asked: Recommendation, confidence: real, compliance: ComplianceStatus,
                            sessions: seq<string>, loaded: seq<seq<Event>>, assessed: Option<real>)
    : Result<Recommendation, Error>
    requires |loaded| == |sessions|
  {
    if !CanRecordAnalysis(l) || asked.OtherWord? || !(0.0 <= confidence <= 1.0) then Err(DomainError)
    else
      var r := if confidence < 0.6 then Refer else asked;
      if compliance.NotStarted? || compliance.Pending? then Err(DomainError)
      else if r.Approve? && (!compliance.Cleared? || assessed.None?) then Err(DomainError)
      else if !SessionsContribute(l, sessions, loaded) then Err(DomainError)
      else Ok(r)
  }

  function ValidateReview(l: Loan, decision: Recommendation, override: bool, reason: Option<string>,
                          amount: Option<real>, compliance: ComplianceStatus): Result<Recommendation, Error>
  {
    if !CanRecordAnalysis(l) || !(decision.Approve? || decision.Decline?) then Err(DomainError)
    else if override && reason.GetOr("") == "" then Err(DomainError)
    else if decision.Approve? && (amount.None? || ValidateApproval(l, amount.value, Some(compliance)).Err?)
    then Err(DomainError)
    else Ok(decision)
  }

  /** The aggregate object, rebuilt event by event. */
  class LoanApplication {
    var appId: Option<string>
    var status: LoanStatus
    var requested: Option<real>
    var assessed: Option<real>
    var compliance: Option<ComplianceStatus>
    var recommendation: Option<Recommendation>
    var finalDecision: Option<Recommendation>
    var version: nat
    var seenReview: bool
    var knownSessions: set<string>

    function State(): Loan
      reads this
    {
      Loan(appId, status, requested, assessed, compliance, recommendation, finalDecision, seenReview, knownSessions)
    }

    constructor ()
      ensures State() == NEW_LOAN && version == 0
    {
      appId, status, requested, assessed, compliance := None, Empty, None, None, None;
      recommendation, finalDecision, version, seenReview, knownSessions := None, None, 0, false, {};
    }

    /** `apply`: false stands for the exception, after which the object is dropped. */
    method Apply(e: Event, position: nat) returns (ok: bool)
      modifies this
      ensures ok <==> Step(old(State()), e).Ok?
      ensures ok ==> State() == Step(old(State()), e).value && version == position
    {
      ok := true;
      match e {
        case ApplicationSubmitted(app, amount) =>
          ok := status.Empty? && amount > 0.0;
          appId, requested, status := Some(app), Some(amount), Submitted;
        case CreditAnalysisRequested(_) =>
          ok := status.Submitted? || status.AwaitingAnalysis?;
          status := AwaitingAnalysis;
        case DecisionGenerated(_, _, _, _, _, _) =>
          ok := ApplyDecision(e);
        case HumanReviewCompleted(_, decision, override, reason) =>
          ok := IsPendingHuman(status) && !(override && reason.GetOr("") == "");
          finalDecision, seenReview := Some(decision), true;
        case ApplicationApproved(_, _) =>
          ok := ApplyApproval(e);
        case ApplicationDeclined(_) =>
          ok := IsPendingHuman(status) && seenReview;
          finalDecision, status := Some(Decline), FinalDeclined;
        case _ =>
      }
      version := position;
    }

    method ApplyDecision(e: Event) returns (ok: bool)
      requires e.DecisionGenerated?
      modifies this
      ensures ok <==> DecisionApplies(old(State()), e)
      ensures ok ==> State() == AfterDecision(old(State()), e)
    {
      if !(status.AwaitingAnalysis? || IsPendingHuman(status)) || !InBounds(e) { return false; }
      if e.recommendation.OtherWord? { return false; }
      if e.confidence.Some? && e.confidence.value < 0.6 && !e.recommendation.Refer? { return false; }
      if e.sessions == [] { return false; }
      if e.recommendation.Approve? {
        var effective := if e.frozen.Some? then e.frozen else compliance;
        if effective != Some(Cleared) { return false; }
      }
      recommendation := Some(e.recommendation);
      if e.frozen.Some? { compliance := e.frozen; }
      if e.assessed.Some? { assessed := e.assessed; }
      var known := knownSessions;
      for i := 0 to |e.sessions|
        invariant known == knownSessions + set s | s in e.sessions[..i]
      {
        assert e.sessions[..i + 1] == e.sessions[..i] + [e.sessions[i]];
        known := known + {e.sessions[i]};
      }
      assert e.sessions[..|e.sessions|] == e.sessions;
      knownSessions := known;
      if e.recommendation.Approve? { status := ApprovedPendingHuman; }
      else if e.recommendation.Decline? { status := DeclinedPendingHuman; }
      else { status := PendingDecision; }
      ok := true;
    }

    method ApplyApproval(e: Event) returns (ok: bool)
      requires e.ApplicationApproved?
      modifies this
      ensures ok <==> Step(old(State()), e).Ok?
      ensures ok ==> State() == Step(old(State()), e).value
    {
      if !IsPendingHuman(status) || e.amount <= 0.0 || !seenReview { return false; }
      ok := CheckApproval(e.amount, None);
      finalDecision, status := Some(Approve), FinalApproved;
    }

    method CheckApproval(amount: real, live: Option<ComplianceStatus>) returns (ok: bool)
      modifies this`compliance
      ensures ok <==> ValidateApproval(old(State()), amount, live).Ok?
      ensures ok ==> State() == ValidateApproval(old(State()), amount, live).value
    {
      var effective := if live.Some? then live else compliance;
      if effective != Some(Cleared) { return false; }
      compliance := effective;
      ok := !(assessed.Some? && amount > assessed.value);
    }

    /** `replay`: a fresh object when every event applies. */
    static method Replayed(events: seq<Event>) returns (loan: LoanApplication, ok: bool)
      ensures fresh(loan)
      ensures ok <==> ReplayLoan(events).Ok?
      ensures ok ==> loan.State() == ReplayLoan(events).value && loan.version == |events|
    {
      loan := new LoanApplication();
      ok := true;
      for i := 0 to |events|
        invariant fresh(loan)
        invariant ok && Replay(Step, NEW_LOAN, events[..i]) == Ok(loan.State()) && loan.version == i
      {
        assert events[..i + 1] == events[..i] + [events[i]];
        ReplayMore(Step, NEW_LOAN, events[..i], events[i]);
        ok := loan.Apply(events[i], i + 1);
        if !ok {
          assert events == events[..i + 1] + events[i + 1..];
          ReplayConcat(Step, NEW_LOAN, events[..i + 1], events[i + 1..]);
          return;
        }
      }
      assert events[..|events|] == events;
    }
  }
}
