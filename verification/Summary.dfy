/** The application summary projection and the regulatory recomputation, against
    the loan aggregate. */
module Summary {
  import opened Prelude
  import opened Events
  import opened Replaying
  import opened EventStore
  import opened Placement
  import opened Interleaving
  import LA = LoanAggregate

  datatype Row = Row(
    state: LA.LoanStatus, recommendation: Option<Recommendation>, finalDecision: Option<Recommendation>,
    requested: Option<real>, approved: Option<real>, assessed: Option<real>,
    compliance: Option<ComplianceStatus>, lastPosition: nat)

  /** The columns an event sets; None leaves a column as it is. */
  datatype Patch = Patch(
    state: Option<LA.LoanStatus>, recommendation: Option<Recommendation>, finalDecision: Option<Recommendation>,
    requested: Option<real>, approved: Option<real>, assessed: Option<real>, compliance: Option<ComplianceStatus>)

  const TOUCH := Patch(None, None, None, None, None, None, None)

  /** `_state_patch`; no patch for events the summary does not watch. */
  function PatchFor(e: Event): Option<Patch> {
    match e
    case ApplicationSubmitted(_, requested) =>
      Some(TOUCH.(state := Some(LA.Submitted), requested := Some(requested)))
    case CreditAnalysisRequested(_) => Some(TOUCH.(state := Some(LA.AwaitingAnalysis)))
    case DecisionGenerated(_, r, _, _, frozen, assessed) =>
      Some(TOUCH.(state := Some(LA.StatusAfter(r)), recommendation := Some(r), compliance := frozen,
                  assessed := assessed))
    case HumanReviewCompleted(_, d, _, _) => Some(TOUCH.(finalDecision := Some(d)))
    case ApplicationApproved(_, amount) =>
      Some(TOUCH.(state := Some(LA.FinalApproved), finalDecision := Some(Approve), approved := Some(amount)))
    case ApplicationDeclined(_) => Some(TOUCH.(state := Some(LA.FinalDeclined), finalDecision := Some(Decline)))
    case ComplianceCheckRequested(_, _, _) => Some(TOUCH.(compliance := Some(Pending)))
    case ComplianceRuleFailed(_, _, _, _) => Some(TOUCH.(compliance := Some(Failed)))
    case ComplianceRulePassed(_, _, _) => Some(TOUCH.(compliance := Some(Pending)))
    case ComplianceCheckCompleted(_, verdict, _, _, _) => Some(TOUCH.(compliance := Some(verdict)))
    case DocumentPackage(_, _) => None
    case AgentSessionStarted(_, _) => None
    case AgentSessionRecovered(_, _, _) => None
    case AgentContextLoaded(_, _, _, _, _) => None
    case _ => Some(TOUCH)
  }

  function Or<T>(a: Option<T>, b: Option<T>): Option<T> { if a.Some? then a else b }

  /** `_merge_state`: a row that has no state yet starts SUBMITTED. */
  function Merge(current: Option<Row>, p: Patch, position: nat): Row {
    match current
    case None =>
      Row(p.state.GetOr(LA.Submitted), p.recommendation, p.finalDecision, p.requested, p.approved, p.assessed,
          p.compliance, position)
    case Some(r) =>
      Row(p.state.GetOr(r.state), Or(p.recommendation, r.recommendation), Or(p.finalDecision, r.finalDecision),
          Or(p.requested, r.requested), Or(p.approved, r.approved), Or(p.assessed, r.assessed),
          Or(p.compliance, r.compliance), position)
  }

  /** `apply` on the table of rows. */
  function ApplySummary(rows: map<string, Row>, e: StoredEvent): map<string, Row> {
    var app, patch := AppOf(e.event), PatchFor(e.event);
    if app.GetOr("") == "" || patch.None? then rows
    else
      var current := if app.value in rows then Some(rows[app.value]) else None;
      rows[app.value := Merge(current, patch.value, e.globalPosition)]
  }

  function SummaryOf(log: seq<StoredEvent>): map<string, Row> {
    if log == [] then map[] else ApplySummary(SummaryOf(log[..|log| - 1]), log[|log| - 1])
  }

  /** The regulatory package's own fold; None stands for UNKNOWN. */
  datatype Regulatory = Regulatory(
    state: Option<LA.LoanStatus>, recommendation: Option<Recommendation>, finalDecision: Option<Recommendation>,
    requested: Option<real>, approved: Option<real>)

  const UNKNOWN := Regulatory(None, None, None, None, None)

  function RegulatoryStep(r: Regulatory, e: Event): Regulatory {
    match e
    case ApplicationSubmitted(_, requested) => r.(state := Some(LA.Submitted), requested := Some(requested))
    case DecisionGenerated(_, d, _, _, _, _) => r.(state := Some(LA.StatusAfter(d)), recommendation := Some(d))
    case ApplicationApproved(_, amount) =>
      r.(state := Some(LA.FinalApproved), finalDecision := Some(Approve), approved := Some(amount))
    case ApplicationDeclined(_) => r.(state := Some(LA.FinalDeclined), finalDecision := Some(Decline))
    case _ => r
  }

  function RegulatoryOf(log: seq<StoredEvent>, app: string): Regulatory {
    if log == [] then UNKNOWN
    else
      var before, e := RegulatoryOf(log[..|log| - 1], app), log[|log| - 1].event;
      if AppOf(e) == Some(app) then RegulatoryStep(before, e) else before
  }

  /** `_compute_application_summary` of the regulatory package. */
  method ComputeApplicationSummary(events: seq<StoredEvent>, app: string) returns (r: Regulatory)
    ensures r == RegulatoryOf(events, app)
  {
    r := UNKNOWN;
    for i := 0 to |events|
      invariant r == RegulatoryOf(events[..i], app)
    {
      assert events[..i + 1][..i] == events[..i];
      var e := events[i].event;
      if AppOf(e) != Some(app) { continue; }
      match e {
        case ApplicationSubmitted(_, requested) => r := r.(state := Some(LA.Submitted), requested := Some(requested));
        case DecisionGenerated(_, d, _, _, _, _) =>
          r := r.(recommendation := Some(d));
          if d == Approve { r := r.(state := Some(LA.ApprovedPendingHuman)); }
          else if d == Decline { r := r.(state := Some(LA.DeclinedPendingHuman)); }
          else { r := r.(state := Some(LA.PendingDecision)); }
        case ApplicationApproved(_, amount) =>
          r := r.(state := Some(LA.FinalApproved), finalDecision := Some(Approve), approved := Some(amount));
        case ApplicationDeclined(_) => r := r.(state := Some(LA.FinalDeclined), finalDecision := Some(Decline));
        case _ =>
      }
    }
    assert events[..|events|] == events;
  }

  /* ---------- agreement with the aggregate ---------- */

  function RowFor(log: seq<StoredEvent>, app: string): Option<Row> {
    if app in SummaryOf(log) then Some(SummaryOf(log)[app]) else None
  }

  /** The row tells what the loan tells; before submission it can only be a
      placeholder that other streams created. */
  predicate RowMatches(l: LA.Loan, row: Option<Row>) {
    if l.status.Empty? then
      row.Some? ==> row.value.recommendation.None? && row.value.finalDecision.None? && row.value.requested.None?
                    && row.value.assessed.None?
    else
      && row.Some? && row.value.state == l.status && row.value.recommendation == l.recommendation
      && row.value.finalDecision == l.finalDecision && row.value.requested == l.requested
      && row.value.assessed == l.assessed
  }

  /** Identifying AWAITING_ANALYSIS with SUBMITTED, and UNKNOWN with EMPTY. */
  predicate RegulatoryMatches(l: LA.Loan, r: Regulatory) {
    && r.state == (if l.status.Empty? then None
                   else if l.status.AwaitingAnalysis? then Some(LA.Submitted) else Some(l.status))
    && r.recommendation == l.recommendation && r.requested == l.requested
    && (LA.IsTerminal(l.status) ==> r.finalDecision == l.finalDecision)
  }

  lemma LoanEventMatches(l: LA.Loan, row: Option<Row>, r: Regulatory, e: Event, position: nat)
    requires IsLoan(e) && LA.Step(l, e).Ok?
    requires RowMatches(l, row) && RegulatoryMatches(l, r)
    requires l.status.Empty? ==> l == LA.NEW_LOAN
    ensures PatchFor(e).Some?
    ensures !LA.Step(l, e).value.status.Empty? || LA.Step(l, e).value == l
    ensures RowMatches(LA.Step(l, e).value, Some(Merge(row, PatchFor(e).value, position)))
    ensures RegulatoryMatches(LA.Step(l, e).value, RegulatoryStep(r, e))
  {
  }

  lemma OtherEventMatches(l: LA.Loan, row: Option<Row>, r: Regulatory, e: Event, position: nat)
    requires !IsLoan(e) && RowMatches(l, row) && RegulatoryMatches(l, r)
    ensures PatchFor(e).Some? ==> RowMatches(l, Some(Merge(row, PatchFor(e).value, position)))
    ensures RegulatoryStep(r, e) == r
  {
  }

  lemma RowAfter(before: seq<StoredEvent>, e: StoredEvent, app: string)
    ensures RowFor(before + [e], app) ==
            if app != "" && AppOf(e.event) == Some(app) && PatchFor(e.event).Some?
            then Some(Merge(RowFor(before, app), PatchFor(e.event).value, e.globalPosition))
            else RowFor(before, app)
    ensures RegulatoryOf(before + [e], app) ==
            if AppOf(e.event) == Some(app) then RegulatoryStep(RegulatoryOf(before, app), e.event)
            else RegulatoryOf(before, app)
  {
    assert (before + [e])[..|before|] == before;
  }

  /** The row of an application tells its loan; an empty id has no row. */
  predicate SummaryMatches(l: LA.Loan, row: Option<Row>, app: string) {
    if app == "" then row.None? else RowMatches(l, row)
  }

  /** On every placed log whose loan stream replays, however the events of other
      streams interleave. */
  lemma {:induction false} SummaryMatchesLoan(log: seq<StoredEvent>, app: string)
    requires Placed(log) && LA.ReplayLoan(StreamOf(log, LoanStream(app))).Ok?
    ensures var l := LA.ReplayLoan(StreamOf(log, LoanStream(app))).value;
            SummaryMatches(l, RowFor(log, app), app) && RegulatoryMatches(l, RegulatoryOf(log, app))
  {
    if log != [] {
      var before, e := log[..|log| - 1], log[|log| - 1];
      var earlier := StreamOf(before, LoanStream(app));
      assert log == before + [e];
      OneMoreRow(before, e, LoanStream(app));
      PlacementReadsBothWays(e.stream, e.event, app);
      RowAfter(before, e, app);
      if e.stream == LoanStream(app) {
        ReplayMore(LA.Step, LA.NEW_LOAN, earlier, e.event);
        SummaryMatchesLoan(before, app);
        LoanRowMatches(before, e, app, earlier);
      } else {
        assert StreamOf(log, LoanStream(app)) == earlier;
        SummaryMatchesLoan(before, app);
        OtherRowMatches(before, e, app, LA.ReplayLoan(earlier).value);
      }
    }
  }

  lemma LoanRowMatches(before: seq<StoredEvent>, e: StoredEvent, app: string, earlier: seq<Event>)
    requires IsLoan(e.event) && AppOf(e.event) == Some(app)
    requires LA.ReplayLoan(earlier).Ok? && LA.Step(LA.ReplayLoan(earlier).value, e.event).Ok?
    requires var l := LA.ReplayLoan(earlier).value;
             SummaryMatches(l, RowFor(before, app), app) && RegulatoryMatches(l, RegulatoryOf(before, app))
    ensures var l := LA.Step(LA.ReplayLoan(earlier).value, e.event).value;
            && SummaryMatches(l, RowFor(before + [e], app), app)
            && RegulatoryMatches(l, RegulatoryOf(before + [e], app))
  {
    var l, row, r := LA.ReplayLoan(earlier).value, RowFor(before, app), RegulatoryOf(before, app);
    RowAfter(before, e, app);
    if l.status.Empty? { EmptyLoanIsFresh(earlier); }
    if app == "" {
      LoanEventMatches(l, Placeholder(l), r, e.event, e.globalPosition);
    } else {
      LoanEventMatches(l, row, r, e.event, e.globalPosition);
    }
  }

  /** A row that matches a loan. */
  function Placeholder(l: LA.Loan): (row: Option<Row>)
    ensures RowMatches(l, row)
  {
    if l.status.Empty? then None
    else Some(Row(l.status, l.recommendation, l.finalDecision, l.requested, None, l.assessed, None, 0))
  }

  lemma OtherRowMatches(before: seq<StoredEvent>, e: StoredEvent, app: string, l: LA.Loan)
    requires !(IsLoan(e.event) && AppOf(e.event) == Some(app))
    requires SummaryMatches(l, RowFor(before, app), app) && RegulatoryMatches(l, RegulatoryOf(before, app))
    ensures SummaryMatches(l, RowFor(before + [e], app), app)
    ensures RegulatoryMatches(l, RegulatoryOf(before + [e], app))
  {
    RowAfter(before, e, app);
    if AppOf(e.event) == Some(app) && app != "" {
      OtherEventMatches(l, RowFor(before, app), RegulatoryOf(before, app), e.event, e.globalPosition);
    }
  }

  /** On every guarded handler run. */
  lemma SummaryMatchesLoanOnRuns(acts: seq<Action>, app: string)
    requires Obeys(START, acts)
    ensures LA.ReplayLoan(Load(Exec(START, acts).store, LoanStream(app))).Ok?
    ensures var s := Exec(START, acts).store;
            var l := LA.ReplayLoan(Load(s, LoanStream(app))).value;
            && SummaryMatches(l, RowFor(s.log, app), app) && RegulatoryMatches(l, RegulatoryOf(s.log, app))
  {
    var s := Exec(START, acts).store;
    EveryRunStaysHealthy(acts);
    EveryLogIsPlaced(acts);
    assert HealthyApp(s, app);
    assert StreamOf(s.log, LoanStream(app)) == Load(s, LoanStream(app));
    SummaryMatchesLoan(s.log, app);
  }
}
