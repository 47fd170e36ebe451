/** The write command handlers: what each loads, what it validates, which batch it
    appends, and exactly when the stream it wrote to can still be replayed. */
module Handlers {
  import opened Prelude
  import opened Events
  import opened Replaying
  import LA = LoanAggregate
  import CA = ComplianceAggregate
  import SA = SessionAggregate

  /** The commands, and the two later phases of a submission with documents. */
  datatype Command =
    | Submit(app: string, amount: real, paths: seq<string>, process: bool)
    | PackageDocuments(app: string, paths: seq<string>, loanVersion: nat)
    | RequestAnalysis(app: string, loanVersion: nat)
    | StartSession(agent: string, session: string, source: string, replayFrom: int, tokens: int, model: string)
    | CompleteCredit(app: string, agent: string, session: string, model: string, confidence: real, limit: real,
                     durationMs: int, inputHash: string)
    | CompleteFraud(app: string, agent: string, session: string, model: string, score: real, inputHash: string)
    | CheckCompliance(app: string, regulationSet: string, rule: string, ruleVersion: string, passed: bool,
                      checks: seq<string>, reason: Option<string>)
    | GenerateDecision(app: string, asked: Recommendation, confidence: real, sessions: seq<string>)
    | CompleteReview(app: string, decision: Recommendation, override: bool, overrideReason: Option<string>,
                     approved: Option<real>)

  /** The streams a handler loads, in the order of its code. */
  function Needs(cmd: Command): seq<string> {
    match cmd
    case Submit(app, _, _, _) => [LoanStream(app)]
    case PackageDocuments(app, _, _) => [DocumentStream(app)]
    case RequestAnalysis(_, _) => []
    case StartSession(agent, session, _, _, _, _) => [SessionStream(agent, session)]
    case CompleteCredit(app, agent, session, _, _, _, _, _) => [SessionStream(agent, session), LoanStream(app)]
    case CompleteFraud(app, agent, session, _, _, _) => [SessionStream(agent, session), LoanStream(app)]
    case CheckCompliance(app, _, _, _, _, _, _) => [ComplianceStream(app)]
    case GenerateDecision(app, _, _, sessions) => [LoanStream(app), ComplianceStream(app)] + sessions
    case CompleteReview(app, _, _, _, _) => [LoanStream(app), ComplianceStream(app)]
  }

  /** The stream a handler writes: the first it loads, or the loan stream. */
  function Target(cmd: Command): string {
    if cmd.RequestAnalysis? then LoanStream(cmd.app) else Needs(cmd)[0]
  }

  function AggregateType(cmd: Command): string {
    match cmd
    case StartSession(_, _, _, _, _, _) => "AgentSession"
    case CompleteCredit(_, _, _, _, _, _, _, _) => "AgentSession"
    case CompleteFraud(_, _, _, _, _, _) => "AgentSession"
    case CheckCompliance(_, _, _, _, _, _, _) => "ComplianceRecord"
    case PackageDocuments(_, _, _) => "DocumentPackage"
    case _ => "LoanApplication"
  }

  function Expected(cmd: Command, loaded: seq<seq<Event>>): nat
    requires |loaded| == |Needs(cmd)|
  {
    if cmd.RequestAnalysis? then cmd.loanVersion else |loaded[0]|
  }

  /* ---------- the batches ---------- */

  function Uploads(app: string, paths: seq<string>): seq<Event> {
    if paths == [] then []
    else
      var path := paths[|paths| - 1];
      Uploads(app, paths[..|paths| - 1]) + [DocumentUploadRequested(app, path), DocumentUploaded(app, path)]
  }

  function AnalysisRequests(app: string): seq<Event> {
    [CreditAnalysisRequested(app), FraudScreeningRequested(app)]
  }

  function DecideSubmit(l: LA.Loan, cmd: Command): Result<seq<Event>, Error>
    requires cmd.Submit?
  {
    if !l.status.Empty? || cmd.amount <= 0.0 || (cmd.process && cmd.paths == []) then Err(DomainError)
    else
      Ok([ApplicationSubmitted(cmd.app, cmd.amount)] + Uploads(cmd.app, cmd.paths)
         + if cmd.process then [] else AnalysisRequests(cmd.app))
  }

  function PackageSteps(app: string, path: string): seq<Event> {
    [DocumentPackage(app, DocumentAdded(path)), DocumentPackage(app, DocumentFormatValidated(path)),
     DocumentPackage(app, ExtractionStarted(path)), DocumentPackage(app, ExtractionCompleted(path)),
     DocumentPackage(app, QualityAssessmentCompleted(path))]
  }

  function PackageBody(app: string, paths: seq<string>): seq<Event> {
    if paths == [] then []
    else PackageBody(app, paths[..|paths| - 1]) + PackageSteps(app, paths[|paths| - 1])
  }

  function DecidePackage(current: seq<Event>, cmd: Command): Result<seq<Event>, Error>
    requires cmd.PackageDocuments?
  {
    if cmd.paths == [] then Err(DomainError)
    else
      Ok((if current == [] then [DocumentPackage(cmd.app, PackageCreated)] else [])
         + PackageBody(cmd.app, cmd.paths) + [DocumentPackage(cmd.app, PackageReadyForAnalysis)])
  }

  const REPLAY_PREFIX := "prior_session_replay:"

  function RecoveredFrom(source: string): string {
    if REPLAY_PREFIX <= source then Strip(source[|REPLAY_PREFIX|..]) else ""
  }

  function DecideSession(s: SA.Session, cmd: Command): Result<seq<Event>, Error>
    requires cmd.StartSession?
  {
    var context := AgentContextLoaded(cmd.agent, cmd.session, cmd.model, cmd.replayFrom, cmd.tokens);
    var from := RecoveredFrom(cmd.source);
    if s.contextLoaded || cmd.tokens <= 0 || !InBounds(context) then Err(DomainError)
    else
      Ok([AgentSessionStarted(cmd.agent, cmd.session)]
         + (if from != "" then [AgentSessionRecovered(cmd.agent, cmd.session, from)] else [])
         + [context])
  }

  function DecideCredit(s: SA.Session, l: LA.Loan, cmd: Command): Result<seq<Event>, Error>
    requires cmd.CompleteCredit?
  {
    if !LA.CanRecordAnalysis(l) || !SA.ReadyForOutput(s, cmd.model) || !(0.0 <= cmd.confidence <= 1.0)
       || cmd.limit <= 0.0 || cmd.durationMs <= 0 || cmd.inputHash == "" then Err(DomainError)
    else Ok([CreditAnalysisCompleted(cmd.app, cmd.agent, cmd.session, Some(cmd.model), Some(cmd.limit),
                                     Some(cmd.confidence))])
  }

  function DecideFraud(s: SA.Session, l: LA.Loan, cmd: Command): Result<seq<Event>, Error>
    requires cmd.CompleteFraud?
  {
    if !LA.CanRecordAnalysis(l) || !SA.ReadyForOutput(s, cmd.model) || !(0.0 <= cmd.score <= 1.0) || cmd.inputHash == ""
    then Err(DomainError)
    else Ok([FraudScreeningCompleted(cmd.app, cmd.agent, cmd.model, cmd.score)])
  }

  /** The handler's own forecast of the record after its rule event. */
  datatype Forecast = Forecast(mandatory: set<string>, passed: set<string>, failed: map<string, string>)
  {
    function Status(): ComplianceStatus { CA.StatusOf(mandatory, passed, failed) }
  }

  function ForecastOf(c: CA.Compliance, cmd: Command): Forecast
    requires cmd.CheckCompliance?
  {
    Forecast(
      if c.status.NotStarted? then CA.ToSet(cmd.checks) else c.mandatory,
      if cmd.passed then c.passed + {cmd.rule} else c.passed - {cmd.rule},
      if cmd.passed then c.failed else c.failed[cmd.rule := cmd.reason.GetOr("")])
  }

  function Opening(c: CA.Compliance, cmd: Command): seq<Event>
    requires cmd.CheckCompliance?
  {
    if c.status.NotStarted? then [ComplianceCheckRequested(cmd.app, cmd.regulationSet, cmd.checks)] else []
  }

  function RuleEvent(cmd: Command): Event
    requires cmd.CheckCompliance?
  {
    if cmd.passed then ComplianceRulePassed(cmd.app, cmd.rule, cmd.ruleVersion)
    else ComplianceRuleFailed(cmd.app, cmd.rule, cmd.ruleVersion, cmd.reason.GetOr(""))
  }

  function Closing(c: CA.Compliance, cmd: Command): seq<Event>
    requires cmd.CheckCompliance?
  {
    var f := ForecastOf(c, cmd);
    if (c.status.NotStarted? || c.status.Pending?) && (f.Status().Cleared? || f.Status().Failed?) then
      [ComplianceCheckCompleted(cmd.app, f.Status(), |f.passed| + |f.failed|, |f.mandatory|, f.failed.Keys)]
    else []
  }

  function DecideCompliance(c: CA.Compliance, cmd: Command): Result<seq<Event>, Error>
    requires cmd.CheckCompliance?
  {
    if cmd.ruleVersion == "" || (c.status.NotStarted? && cmd.checks == []) then Err(DomainError)
    else if c.regulationSet.GetOr("") != "" && c.regulationSet != Some(cmd.regulationSet) then Err(DomainError)
    else if !cmd.passed && cmd.reason.GetOr("") == "" then Err(DomainError)
    else Ok(Opening(c, cmd) + [RuleEvent(cmd)] + Closing(c, cmd))
  }

  predicate HasLimit(e: Event) { e.CreditAnalysisCompleted? && e.limit.Some? }

  /** `_extract_assessed_max_limit`: the largest recommended limit there is. */
  function AssessedMax(events: seq<Event>): (m: Option<real>)
    ensures m.None? <==> forall i | 0 <= i < |events| :: !HasLimit(events[i])
    ensures m.Some? ==> exists i :: 0 <= i < |events| && HasLimit(events[i]) && events[i].limit == m
    ensures m.Some? ==> forall i | 0 <= i < |events| && HasLimit(events[i]) :: events[i].limit.value <= m.value
  {
    if events == [] then None
    else
      var before, e := AssessedMax(events[..|events| - 1]), events[|events| - 1];
      if !HasLimit(e) then before
      else if before.Some? && e.limit.value <= before.value then before
      else e.limit
  }

  function Together(streams: seq<seq<Event>>): seq<Event> {
    if streams == [] then [] else Together(streams[..|streams| - 1]) + streams[|streams| - 1]
  }

  function DecideDecision(l: LA.Loan, c: CA.Compliance, loaded: seq<seq<Event>>, cmd: Command)
    : Result<seq<Event>, Error>
    requires cmd.GenerateDecision? && |loaded| == |cmd.sessions|
  {
    var assessed := AssessedMax(Together(loaded));
    match LA.ValidateDecision(l, cmd.asked, cmd.confidence, c.status, cmd.sessions, loaded, assessed)
    case Err(e) => Err(e)
    case Ok(r) =>
      Ok([DecisionRequested(cmd.app),
          DecisionGenerated(cmd.app, r, Some(cmd.confidence), cmd.sessions, Some(c.status), assessed),
          HumanReviewRequested(cmd.app)])
  }

  function DecideReview(l: LA.Loan, c: CA.Compliance, cmd: Command): Result<seq<Event>, Error>
    requires cmd.CompleteReview?
  {
    match LA.ValidateReview(l, cmd.decision, cmd.override, cmd.overrideReason, cmd.approved, c.status)
    case Err(e) => Err(e)
    case Ok(d) =>
      var review := HumanReviewCompleted(cmd.app, d, cmd.override, cmd.overrideReason);
      if d.Approve? then
        if cmd.approved.GetOr(0.0) <= 0.0 then Err(DomainError)
        else Ok([review, ApplicationApproved(cmd.app, cmd.approved.value)])
      else Ok([review, ApplicationDeclined(cmd.app)])
  }

  /** Validation and decision on what was loaded; a stream that does not replay
      makes the load itself fail. */
  function Decide(cmd: Command, loaded: seq<seq<Event>>): Result<seq<Event>, Error>
    requires |loaded| == |Needs(cmd)|
  {
    match cmd
    case Submit(_, _, _, _) =>
      var l := LA.ReplayLoan(loaded[0]);
      if l.Err? then Err(DomainError) else DecideSubmit(l.value, cmd)
    case PackageDocuments(_, _, _) => DecidePackage(loaded[0], cmd)
    case RequestAnalysis(app, _) => Ok(AnalysisRequests(app))
    case StartSession(_, _, _, _, _, _) =>
      var s := SA.ReplaySession(loaded[0]);
      if s.Err? then Err(DomainError) else DecideSession(s.value, cmd)
    case CompleteCredit(_, _, _, _, _, _, _, _) =>
      var s, l := SA.ReplaySession(loaded[0]), LA.ReplayLoan(loaded[1]);
      if s.Err? || l.Err? then Err(DomainError) else DecideCredit(s.value, l.value, cmd)
    case CompleteFraud(_, _, _, _, _, _) =>
      var s, l := SA.ReplaySession(loaded[0]), LA.ReplayLoan(loaded[1]);
      if s.Err? || l.Err? then Err(DomainError) else DecideFraud(s.value, l.value, cmd)
    case CheckCompliance(_, _, _, _, _, _, _) =>
      var c := CA.ReplayRecord(loaded[0]);
      if c.Err? then Err(DomainError) else DecideCompliance(c.value, cmd)
    case GenerateDecision(_, _, _, _) =>
      var l, c := LA.ReplayLoan(loaded[0]), CA.ReplayRecord(loaded[1]);
      if l.Err? || c.Err? then Err(DomainError) else DecideDecision(l.value, c.value, loaded[2..], cmd)
    case CompleteReview(_, _, _, _, _) =>
      var l, c := LA.ReplayLoan(loaded[0]), CA.ReplayRecord(loaded[1]);
      if l.Err? || c.Err? then Err(DomainError) else DecideReview(l.value, c.value, cmd)
  }

  /* ---------- exactly when the written stream still replays ---------- */

  /** The guard a caller of the compliance handler can check beforehand. */
  predicate ComplianceGuard(c: CA.Compliance, cmd: Command)
    requires cmd.CheckCompliance?
  {
    && cmd.rule in ForecastOf(c, cmd).mandatory
    && !IsBlank(cmd.ruleVersion)
    && (cmd.passed ==> cmd.rule !in c.failed)
    && (!cmd.passed ==> !IsBlank(cmd.reason.GetOr("")))
  }

  /** An accepted check extends its stream replayably iff the guard holds, and
      then the record is the one the handler forecast. */
  lemma ComplianceBatchReplaysIff(c: CA.Compliance, cmd: Command)
    requires cmd.CheckCompliance? && CA.Consistent(c) && DecideCompliance(c, cmd).Ok?
    ensures var after := Replay(CA.Step, c, DecideCompliance(c, cmd).value);
            && (after.Ok? <==> ComplianceGuard(c, cmd))
            && (after.Ok? ==>
                  var f := ForecastOf(c, cmd);
                  && after.value.mandatory == f.mandatory && after.value.passed == f.passed
                  && after.value.failed.Keys == f.failed.Keys && after.value.status == f.Status())
  {
    OpeningReplays(c, cmd);
    RuleApplies(c, cmd);
    var judged := Opening(c, cmd) + [RuleEvent(cmd)];
    ReplayMore(CA.Step, c, Opening(c, cmd), RuleEvent(cmd));
    ClosingIsIgnored(c, cmd, judged);
  }

  lemma RuleApplies(c: CA.Compliance, cmd: Command)
    requires cmd.CheckCompliance? && CA.Consistent(c) && DecideCompliance(c, cmd).Ok?
    ensures var after := CA.Step(Opened(c, cmd), RuleEvent(cmd));
            && (after.Ok? <==> ComplianceGuard(c, cmd))
            && (after.Ok? ==>
                  var f := ForecastOf(c, cmd);
                  && after.value.mandatory == f.mandatory && after.value.passed == f.passed
                  && after.value.failed.Keys == f.failed.Keys && after.value.status == f.Status())
  {
    OpeningReplays(c, cmd);
    assert Opened(c, cmd).failed == c.failed && Opened(c, cmd).passed == c.passed;
    RuleAppliesTo(Opened(c, cmd), cmd);
  }

  lemma RuleAppliesTo(o: CA.Compliance, cmd: Command)
    requires cmd.CheckCompliance? && !o.status.NotStarted? && o.mandatory != {}
    ensures var after := CA.Step(o, RuleEvent(cmd));
            && (after.Ok? <==>
                  && cmd.rule in o.mandatory && !IsBlank(cmd.ruleVersion)
                  && (cmd.passed ==> cmd.rule !in o.failed)
                  && (!cmd.passed ==> !IsBlank(cmd.reason.GetOr(""))))
            && (after.Ok? ==>
                  var passed := if cmd.passed then o.passed + {cmd.rule} else o.passed - {cmd.rule};
                  var failed := if cmd.passed then o.failed else o.failed[cmd.rule := cmd.reason.GetOr("")];
                  && after.value.mandatory == o.mandatory && after.value.passed == passed
                  && after.value.failed.Keys == failed.Keys
                  && after.value.status == CA.StatusOf(o.mandatory, passed, failed))
  {
    if !cmd.passed {
      var reason := cmd.reason.GetOr("");
      assert o.failed[cmd.rule := Strip(reason)].Keys == o.failed[cmd.rule := reason].Keys;
    }
  }

  lemma ClosingIsIgnored(c: CA.Compliance, cmd: Command, judged: seq<Event>)
    requires cmd.CheckCompliance?
    ensures Replay(CA.Step, c, judged + Closing(c, cmd)) == Replay(CA.Step, c, judged)
  {
    var closing := Closing(c, cmd);
    if closing == [] {
      assert judged + closing == judged;
    } else {
      assert closing == [closing[0]];
      ReplayMore(CA.Step, c, judged, closing[0]);
    }
  }

  function Opened(c: CA.Compliance, cmd: Command): CA.Compliance
    requires cmd.CheckCompliance?
  {
    if c.status.NotStarted? then
      c.(appId := Some(cmd.app), regulationSet := Some(cmd.regulationSet), mandatory := CA.ToSet(cmd.checks),
         status := Pending)
    else c
  }

  lemma OpeningReplays(c: CA.Compliance, cmd: Command)
    requires cmd.CheckCompliance? && CA.Consistent(c) && DecideCompliance(c, cmd).Ok?
    ensures Replay(CA.Step, c, Opening(c, cmd)) == Ok(Opened(c, cmd))
    ensures Opened(c, cmd).mandatory == ForecastOf(c, cmd).mandatory != {}
  {
    if c.status.NotStarted? {
      ReplayOne(CA.Step, c, Opening(c, cmd)[0]);
      assert cmd.checks[0] in CA.ToSet(cmd.checks);
    }
  }

  /** An accepted decision extends the loan stream replayably iff analysis was
      requested before it: the state machine refuses it in SUBMITTED. */
  lemma DecisionBatchReplaysIff(l: LA.Loan, c: CA.Compliance, loaded: seq<seq<Event>>, cmd: Command)
    requires cmd.GenerateDecision? && |loaded| == |cmd.sessions| && DecideDecision(l, c, loaded, cmd).Ok?
    ensures var batch := DecideDecision(l, c, loaded, cmd).value;
            var after := Replay(LA.Step, l, batch);
            && (after.Ok? <==> !l.status.Submitted?)
            && (after.Ok? ==> after.value == LA.AfterDecision(l, batch[1]))
            && batch[1].frozen == Some(c.status) && (c.status.Cleared? || c.status.Failed?)
            && (batch[1].recommendation.Approve? ==> c.status.Cleared?)
  {
    var batch := DecideDecision(l, c, loaded, cmd).value;
    ReplayThree(l, batch[0], batch[1], batch[2]);
    assert batch == [batch[0], batch[1], batch[2]];
  }

  lemma ReplayThree(l: LA.Loan, a: Event, b: Event, c: Event)
    requires a.DecisionRequested? && c.HumanReviewRequested?
    ensures Replay(LA.Step, l, [a, b, c]) == LA.Step(l, b)
  {
    ReplayOne(LA.Step, l, a);
    ReplayMore(LA.Step, l, [a], b);
    ReplayMore(LA.Step, l, [a, b], c);
    assert [a] + [b] == [a, b] && [a, b] + [c] == [a, b, c];
  }

  /** The cross-stream link between a loan and its compliance record: the status
      frozen by the last decision can only have moved on to FAILED since. */
  predicate Linked(l: LA.Loan, live: ComplianceStatus) {
    match l.compliance
    case None => l.status.Empty? || l.status.Submitted? || l.status.AwaitingAnalysis?
    case Some(frozen) => (frozen.Cleared? || frozen.Failed?) && CA.Reaches(frozen, live)
  }

  /** An accepted review extends the loan stream replayably iff the loan awaits a
      human: an approval checked against the live record then always passes the
      replay's check of the frozen status. */
  lemma ReviewBatchReplaysIff(l: LA.Loan, c: CA.Compliance, cmd: Command)
    requires cmd.CompleteReview? && Linked(l, c.status) && DecideReview(l, c, cmd).Ok?
    ensures var after := Replay(LA.Step, l, DecideReview(l, c, cmd).value);
            && (after.Ok? <==> LA.IsPendingHuman(l.status))
            && (after.Ok? ==> after.value.compliance == l.compliance && LA.IsTerminal(after.value.status))
  {
    var batch := DecideReview(l, c, cmd).value;
    ReplayTwo(l, batch[0], batch[1]);
    assert batch == [batch[0], batch[1]];
    if LA.IsPendingHuman(l.status) {
      if cmd.decision.Approve? { ApprovalReplays(l, c.status, cmd.approved.value, batch[0], batch[1]); }
    } else {
      assert LA.Step(l, batch[0]).Err?;
    }
  }

  lemma ReplayTwo(l: LA.Loan, a: Event, b: Event)
    ensures Replay(LA.Step, l, [a, b]) ==
            match LA.Step(l, a)
            case Ok(l') => LA.Step(l', b)
            case Err(e) => Err(e)
  {
    ReplayOne(LA.Step, l, a);
    ReplayMore(LA.Step, l, [a], b);
    assert [a] + [b] == [a, b];
  }

  /** An approval that the live record allows is allowed by the frozen status too. */
  lemma ApprovalReplays(l: LA.Loan, live: ComplianceStatus, amount: real, review: Event, approval: Event)
    requires LA.IsPendingHuman(l.status) && Linked(l, live) && amount > 0.0
    requires LA.ValidateApproval(l, amount, Some(live)).Ok?
    requires review.HumanReviewCompleted? && LA.Step(l, review).Ok?
    requires approval.ApplicationApproved? && approval.amount == amount
    ensures var after := LA.Step(LA.Step(l, review).value, approval);
            after.Ok? && after.value.compliance == l.compliance && LA.IsTerminal(after.value.status)
  {
    assert l.compliance == Some(Cleared);
  }

  /** A session start extends its stream replayably iff its model version is not blank. */
  lemma SessionBatchReplaysIff(s: SA.Session, cmd: Command)
    requires cmd.StartSession? && DecideSession(s, cmd).Ok?
    ensures Replay(SA.Step, s, DecideSession(s, cmd).value).Ok? <==> !IsBlank(cmd.model)
  {
    var batch := DecideSession(s, cmd).value;
    var before, context := batch[..|batch| - 1], batch[|batch| - 1];
    assert before == [batch[0]] || before == [batch[0]] + [batch[1]];
    ReplayOne(SA.Step, s, batch[0]);
    if |before| == 2 { ReplayMore(SA.Step, s, [batch[0]], batch[1]); }
    assert Replay(SA.Step, s, before) == Ok(s);
    assert batch == before + [context];
    ReplayMore(SA.Step, s, before, context);
  }

  /** Accepted analyses always extend their session replayably. */
  lemma AnalysisBatchesReplay(s: SA.Session, l: LA.Loan, cmd: Command)
    requires SA.Loaded(s)
    ensures cmd.CompleteCredit? && DecideCredit(s, l, cmd).Ok? ==> Replay(SA.Step, s, DecideCredit(s, l, cmd).value).Ok?
    ensures cmd.CompleteFraud? && DecideFraud(s, l, cmd).Ok? ==> Replay(SA.Step, s, DecideFraud(s, l, cmd).value).Ok?
  {
    if cmd.CompleteCredit? && DecideCredit(s, l, cmd).Ok? { ReplayOne(SA.Step, s, DecideCredit(s, l, cmd).value[0]); }
    if cmd.CompleteFraud? && DecideFraud(s, l, cmd).Ok? { ReplayOne(SA.Step, s, DecideFraud(s, l, cmd).value[0]); }
  }

  lemma {:induction false} UploadsAreIgnored(l: LA.Loan, app: string, paths: seq<string>)
    ensures Replay(LA.Step, l, Uploads(app, paths)) == Ok(l)
  {
    if paths != [] {
      var before, path := Uploads(app, paths[..|paths| - 1]), paths[|paths| - 1];
      UploadsAreIgnored(l, app, paths[..|paths| - 1]);
      ReplayMore(LA.Step, l, before, DocumentUploadRequested(app, path));
      ReplayMore(LA.Step, l, before + [DocumentUploadRequested(app, path)], DocumentUploaded(app, path));
      assert Uploads(app, paths) == before + [DocumentUploadRequested(app, path)] + [DocumentUploaded(app, path)];
    }
  }

  lemma AnalysisRequestsReplay(l: LA.Loan, app: string)
    requires l.status.Submitted? || l.status.AwaitingAnalysis?
    ensures Replay(LA.Step, l, AnalysisRequests(app)) == Ok(l.(status := LA.AwaitingAnalysis))
  {
    ReplayOne(LA.Step, l, CreditAnalysisRequested(app));
    ReplayMore(LA.Step, l, [CreditAnalysisRequested(app)], FraudScreeningRequested(app));
    assert AnalysisRequests(app) == [CreditAnalysisRequested(app)] + [FraudScreeningRequested(app)];
  }

  /** Accepted submissions always extend the loan stream replayably. */
  lemma SubmitBatchReplays(l: LA.Loan, cmd: Command)
    requires cmd.Submit? && DecideSubmit(l, cmd).Ok?
    ensures Replay(LA.Step, l, DecideSubmit(l, cmd).value) ==
            Ok(l.(appId := Some(cmd.app), requested := Some(cmd.amount),
                  status := if cmd.process then LA.Submitted else LA.AwaitingAnalysis))
  {
    var first := ApplicationSubmitted(cmd.app, cmd.amount);
    ReplayOne(LA.Step, l, first);
    var submitted := LA.Step(l, first).value;
    UploadsAreIgnored(submitted, cmd.app, cmd.paths);
    ReplayConcat(LA.Step, l, [first], Uploads(cmd.app, cmd.paths));
    var tail := if cmd.process then [] else AnalysisRequests(cmd.app);
    ReplayConcat(LA.Step, l, [first] + Uploads(cmd.app, cmd.paths), tail);
    AnalysisRequestsReplay(submitted, cmd.app);
  }

  /** The guard of every command, checkable before the call on what it loads. */
  predicate Guard(cmd: Command, loaded: seq<seq<Event>>)
    requires |loaded| == |Needs(cmd)|
  {
    match cmd
    case StartSession(_, _, _, _, _, _) => !IsBlank(cmd.model)
    case CheckCompliance(_, _, _, _, _, _, _) =>
      var c := CA.ReplayRecord(loaded[0]);
      c.Ok? && ComplianceGuard(c.value, cmd)
    case GenerateDecision(_, _, _, _) =>
      var l := LA.ReplayLoan(loaded[0]);
      l.Ok? && !l.value.status.Submitted?
    case CompleteReview(_, _, _, _, _) =>
      var l := LA.ReplayLoan(loaded[0]);
      l.Ok? && LA.IsPendingHuman(l.value.status)
    case _ => true
  }
}
