/** What an accepted command writes, event by event, and exactly when a command is
    accepted, in the words of the command and of what was loaded. */
module Outcomes {
  import opened Prelude
  import opened Events
  import opened Replaying
  import opened Handlers
  import LA = LoanAggregate
  import CA = ComplianceAggregate
  import SA = SessionAggregate

  /* ---------- compliance checks ---------- */

  predicate Undecided(c: CA.Compliance) { c.status.NotStarted? || c.status.Pending? }

  /** The rules the record requires once the check is opened. */
  function RequiredBy(c: CA.Compliance, cmd: Command): set<string>
    requires cmd.CheckCompliance?
  {
    if c.status.NotStarted? then set s | s in cmd.checks else c.mandatory
  }

  /** A check is accepted iff it has a rule version, opens a record only with required
      checks, keeps the record's regulation set and gives a reason for a failure. */
  lemma CheckIsAcceptedIff(c: CA.Compliance, cmd: Command)
    requires cmd.CheckCompliance?
    ensures DecideCompliance(c, cmd).Ok? <==>
            && cmd.ruleVersion != "" && (c.status.NotStarted? ==> cmd.checks != [])
            && (c.regulationSet.Some? && c.regulationSet.value != "" ==> c.regulationSet.value == cmd.regulationSet)
            && (!cmd.passed ==> cmd.reason.Some? && cmd.reason.value != "")
  {
  }

  /** A first failure, or the last missing pass, decides a record. */
  predicate Decides(c: CA.Compliance, cmd: Command)
    requires cmd.CheckCompliance?
  {
    Undecided(c) && (!cmd.passed || RequiredBy(c, cmd) <= c.passed + {cmd.rule})
  }

  /** An accepted check opens a new record, writes its rule event, and completes the record
      with the verdict exactly when it decides it: FAILED at the first failure, CLEARED
      when no required rule is missing. */
  lemma CheckWrites(c: CA.Compliance, cmd: Command)
    requires cmd.CheckCompliance? && CA.Consistent(c) && DecideCompliance(c, cmd).Ok?
    ensures var batch := DecideCompliance(c, cmd).value;
            var opens := if c.status.NotStarted? then 1 else 0;
            && |batch| == opens + 1 + (if Decides(c, cmd) then 1 else 0)
            && (c.status.NotStarted? ==> batch[0] == ComplianceCheckRequested(cmd.app, cmd.regulationSet, cmd.checks))
            && batch[opens] == (if cmd.passed then ComplianceRulePassed(cmd.app, cmd.rule, cmd.ruleVersion)
                                else ComplianceRuleFailed(cmd.app, cmd.rule, cmd.ruleVersion, cmd.reason.value))
            && (Decides(c, cmd) ==>
                  var e := batch[opens + 1];
                  && e.ComplianceCheckCompleted? && e.appId == cmd.app
                  && e.verdict == (if cmd.passed then Cleared else Failed)
                  && e.failedRules == (if cmd.passed then {} else {cmd.rule})
                  && e.totalChecks == |RequiredBy(c, cmd)|
                  && e.completedChecks == if cmd.passed then |c.passed + {cmd.rule}| else |c.passed - {cmd.rule}| + 1)
  {
    if Undecided(c) { DecidingIsForecast(c, cmd); }
  }

  lemma DecidingIsForecast(c: CA.Compliance, cmd: Command)
    requires cmd.CheckCompliance? && CA.Consistent(c) && DecideCompliance(c, cmd).Ok? && Undecided(c)
    ensures var f := ForecastOf(c, cmd);
            && f.mandatory == RequiredBy(c, cmd)
            && f.Status() == (if !Decides(c, cmd) then Pending else if cmd.passed then Cleared else Failed)
            && f.failed.Keys == (if cmd.passed then {} else {cmd.rule})
            && f.passed == (if cmd.passed then c.passed + {cmd.rule} else c.passed - {cmd.rule})
            && |f.failed| == (if cmd.passed then 0 else 1)
  {
    var f := ForecastOf(c, cmd);
    assert c.failed == map[];
    if c.status.NotStarted? { assert cmd.checks[0] in f.mandatory; }
    if !cmd.passed { assert f.failed == map[cmd.rule := cmd.reason.GetOr("")]; }
  }

  /* ---------- human reviews ---------- */

  /** A review is accepted iff the loan is open, the decision is one of the two, an override
      has its reason, and an approval has a positive amount within the assessed limit on
      a CLEARED record. */
  lemma ReviewIsAcceptedIff(l: LA.Loan, c: CA.Compliance, cmd: Command)
    requires cmd.CompleteReview?
    ensures DecideReview(l, c, cmd).Ok? <==>
            && !l.status.Empty? && !l.status.FinalApproved? && !l.status.FinalDeclined?
            && (cmd.decision.Approve? || cmd.decision.Decline?)
            && (cmd.override ==> cmd.overrideReason.Some? && cmd.overrideReason.value != "")
            && (cmd.decision.Approve? ==>
                  && c.status.Cleared? && cmd.approved.Some? && cmd.approved.value > 0.0
                  && (l.assessed.Some? ==> cmd.approved.value <= l.assessed.value))
  {
  }

  /** An accepted review writes itself and then exactly the outcome it decided. */
  lemma ReviewWrites(l: LA.Loan, c: CA.Compliance, cmd: Command)
    requires cmd.CompleteReview? && DecideReview(l, c, cmd).Ok?
    ensures var batch := DecideReview(l, c, cmd).value;
            && |batch| == 2
            && batch[0] == HumanReviewCompleted(cmd.app, cmd.decision, cmd.override, cmd.overrideReason)
            && (batch[1].ApplicationApproved? <==> cmd.decision.Approve?)
            && (batch[1].ApplicationDeclined? <==> cmd.decision.Decline?)
            && (cmd.decision.Approve? ==> batch[1] == ApplicationApproved(cmd.app, cmd.approved.value))
            && (cmd.decision.Decline? ==> batch[1] == ApplicationDeclined(cmd.app))
  {
  }

  /** Under the guard the replayed loan ends as the human decided: FINAL_APPROVED iff the
      decision is an approval, FINAL_DECLINED iff it is a decline. */
  lemma ReviewEndsAsDecided(l: LA.Loan, c: CA.Compliance, cmd: Command)
    requires cmd.CompleteReview? && Linked(l, c.status) && DecideReview(l, c, cmd).Ok?
    requires LA.IsPendingHuman(l.status)
    ensures var after := Replay(LA.Step, l, DecideReview(l, c, cmd).value);
            && after.Ok? && after.value.finalDecision == Some(cmd.decision)
            && (after.value.status.FinalApproved? <==> cmd.decision.Approve?)
            && (after.value.status.FinalDeclined? <==> cmd.decision.Decline?)
  {
    var batch := DecideReview(l, c, cmd).value;
    ReviewBatchReplaysIff(l, c, cmd);
    ReplayTwo(l, batch[0], batch[1]);
    assert batch == [batch[0], batch[1]];
  }

  /* ---------- generated decisions ---------- */

  /** `m` is the largest limit that an analysis in some of the streams recommends. */
  ghost predicate IsLargestLimit(m: Option<real>, streams: seq<seq<Event>>) {
    && (m.None? ==> forall i, j | 0 <= i < |streams| && 0 <= j < |streams[i]| :: !HasLimit(streams[i][j]))
    && (m.Some? ==>
          && (exists i, j | 0 <= i < |streams| && 0 <= j < |streams[i]| ::
                HasLimit(streams[i][j]) && streams[i][j].limit == m)
          && forall i, j | 0 <= i < |streams| && 0 <= j < |streams[i]| ::
               HasLimit(streams[i][j]) ==> streams[i][j].limit.value <= m.value)
  }

  lemma {:induction false} TogetherHolds(streams: seq<seq<Event>>, e: Event)
    ensures e in Together(streams) <==> exists i | 0 <= i < |streams| :: e in streams[i]
  {
    if streams != [] {
      var before, last := streams[..|streams| - 1], streams[|streams| - 1];
      TogetherHolds(before, e);
      assert e in last ==> e in streams[|streams| - 1];
      if i :| 0 <= i < |streams| && e in streams[i] {
        if i < |before| { assert e in before[i]; }
      }
      if e in Together(before) {
        var i :| 0 <= i < |before| && e in before[i];
        assert e in streams[i];
      }
    }
  }

  lemma AssessedIsLargest(streams: seq<seq<Event>>)
    ensures IsLargestLimit(AssessedMax(Together(streams)), streams)
  {
    var events, m := Together(streams), AssessedMax(Together(streams));
    forall i, j | 0 <= i < |streams| && 0 <= j < |streams[i]|
      ensures HasLimit(streams[i][j]) ==> m.Some? && streams[i][j].limit.value <= m.value
    {
      TogetherHolds(streams, streams[i][j]);
      var k :| 0 <= k < |events| && events[k] == streams[i][j];
    }
    if m.Some? {
      var k :| 0 <= k < |events| && HasLimit(events[k]) && events[k].limit == m;
      TogetherHolds(streams, events[k]);
      var i :| 0 <= i < |streams| && events[k] in streams[i];
      var j :| 0 <= j < |streams[i]| && streams[i][j] == events[k];
    }
  }

  /** A session counts for the loan iff it loaded its context and analysed this application. */
  predicate CountsFor(l: LA.Loan, session: seq<Event>) {
    && (exists i | 0 <= i < |session| :: session[i].AgentContextLoaded?)
    && (exists i | 0 <= i < |session| ::
          (session[i].CreditAnalysisCompleted? || session[i].FraudScreeningCompleted?)
          && session[i].appId == l.appId.GetOr(""))
  }

  /** The recommendation that is frozen: below 0.6 a decision is referred. */
  function Frozen(cmd: Command): Recommendation
    requires cmd.GenerateDecision?
  {
    if cmd.confidence < 0.6 then Refer else cmd.asked
  }

  /** A decision is accepted iff the loan is open, the word and the confidence are in their
      ranges, compliance is decided, an approval has a CLEARED record and some limit,
      and the sessions are distinct, at least one, and all count. */
  lemma DecisionIsAcceptedIff(l: LA.Loan, c: CA.Compliance, loaded: seq<seq<Event>>, cmd: Command)
    requires cmd.GenerateDecision? && |loaded| == |cmd.sessions|
    ensures DecideDecision(l, c, loaded, cmd).Ok? <==>
            && !l.status.Empty? && !l.status.FinalApproved? && !l.status.FinalDeclined?
            && !cmd.asked.OtherWord? && 0.0 <= cmd.confidence <= 1.0
            && (c.status.Cleared? || c.status.Failed?)
            && (Frozen(cmd).Approve? ==>
                  c.status.Cleared?
                  && exists i, j | 0 <= i < |loaded| && 0 <= j < |loaded[i]| :: HasLimit(loaded[i][j]))
            && cmd.sessions != [] && (forall i, j | 0 <= i < j < |loaded| :: cmd.sessions[i] != cmd.sessions[j])
            && (forall i | 0 <= i < |loaded| :: CountsFor(l, loaded[i]))
  {
    AssessedIsLargest(loaded);
    forall i | 0 <= i < |loaded| ensures LA.Contributes(l, loaded[i]) <==> CountsFor(l, loaded[i]) { }
  }

  /** An accepted decision writes its request, the decision with everything it froze, and
      the request for a human. */
  lemma DecisionWrites(l: LA.Loan, c: CA.Compliance, loaded: seq<seq<Event>>, cmd: Command)
    requires cmd.GenerateDecision? && |loaded| == |cmd.sessions| && DecideDecision(l, c, loaded, cmd).Ok?
    ensures var batch := DecideDecision(l, c, loaded, cmd).value;
            && |batch| == 3 && batch[0] == DecisionRequested(cmd.app) && batch[2] == HumanReviewRequested(cmd.app)
            && batch[1].DecisionGenerated? && batch[1].appId == cmd.app
            && batch[1].recommendation == (if cmd.confidence < 0.6 then Refer else cmd.asked)
            && batch[1].confidence == Some(cmd.confidence) && batch[1].sessions == cmd.sessions
            && batch[1].frozen == Some(c.status) && IsLargestLimit(batch[1].assessed, loaded)
  {
    AssessedIsLargest(loaded);
  }

  /** Under its guard the decision leaves the loan waiting for a human on what was frozen. */
  lemma DecisionLeaves(l: LA.Loan, c: CA.Compliance, loaded: seq<seq<Event>>, cmd: Command)
    requires cmd.GenerateDecision? && |loaded| == |cmd.sessions| && DecideDecision(l, c, loaded, cmd).Ok?
    requires !l.status.Submitted?
    ensures var after := Replay(LA.Step, l, DecideDecision(l, c, loaded, cmd).value);
            && after.Ok? && after.value.recommendation == Some(Frozen(cmd)) && after.value.compliance == Some(c.status)
            && (after.value.status.ApprovedPendingHuman? <==> Frozen(cmd).Approve?)
            && (after.value.status.DeclinedPendingHuman? <==> Frozen(cmd).Decline?)
            && (after.value.status.PendingDecision? <==> Frozen(cmd).Refer?)
            && (forall s :: s in after.value.sessions <==> s in l.sessions || s in cmd.sessions)
            && (exists m: Option<real> :: IsLargestLimit(m, loaded)
                                          && after.value.assessed == if m.Some? then m else l.assessed)
  {
    DecisionWrites(l, c, loaded, cmd);
    DecisionBatchReplaysIff(l, c, loaded, cmd);
    assert IsLargestLimit(DecideDecision(l, c, loaded, cmd).value[1].assessed, loaded);
  }

  /* ---------- submissions ---------- */

  lemma {:induction false} UploadsAt(app: string, paths: seq<string>, i: nat)
    requires i < |paths|
    ensures |Uploads(app, paths)| == 2 * |paths|
    ensures Uploads(app, paths)[2 * i] == DocumentUploadRequested(app, paths[i])
    ensures Uploads(app, paths)[2 * i + 1] == DocumentUploaded(app, paths[i])
  {
    var n := |paths| - 1;
    if n > 0 { UploadsAt(app, paths[..n], if i < n then i else 0); }
  }

  lemma SubmissionIsAcceptedIff(l: LA.Loan, cmd: Command)
    requires cmd.Submit?
    ensures DecideSubmit(l, cmd).Ok? <==> l.status.Empty? && cmd.amount > 0.0 && (cmd.process ==> cmd.paths != [])
  {
  }

  /** An accepted submission writes itself, two events for each document in order, and the
      analysis requests unless the documents are to be processed first. */
  lemma SubmissionWrites(l: LA.Loan, cmd: Command)
    requires cmd.Submit? && DecideSubmit(l, cmd).Ok?
    ensures var batch, n := DecideSubmit(l, cmd).value, |cmd.paths|;
            && |batch| == 1 + 2 * n + (if cmd.process then 0 else 2)
            && batch[0] == ApplicationSubmitted(cmd.app, cmd.amount)
            && (forall i: nat | i < n ::
                  && batch[1 + 2 * i] == DocumentUploadRequested(cmd.app, cmd.paths[i])
                  && batch[2 + 2 * i] == DocumentUploaded(cmd.app, cmd.paths[i]))
            && (!cmd.process ==>
                  && batch[1 + 2 * n] == CreditAnalysisRequested(cmd.app)
                  && batch[2 + 2 * n] == FraudScreeningRequested(cmd.app))
  {
    if cmd.paths != [] { UploadsAt(cmd.app, cmd.paths, 0); }
    forall i: nat | i < |cmd.paths| { UploadsAt(cmd.app, cmd.paths, i); }
  }

  /** The five steps of one document, in order, from place `at` on. */
  predicate StepsFor(app: string, path: string, batch: seq<Event>, at: nat) {
    && at + 5 <= |batch|
    && batch[at] == DocumentPackage(app, DocumentAdded(path))
    && batch[at + 1] == DocumentPackage(app, DocumentFormatValidated(path))
    && batch[at + 2] == DocumentPackage(app, ExtractionStarted(path))
    && batch[at + 3] == DocumentPackage(app, ExtractionCompleted(path))
    && batch[at + 4] == DocumentPackage(app, QualityAssessmentCompleted(path))
  }

  lemma {:induction false} PackageBodySize(app: string, paths: seq<string>)
    ensures |PackageBody(app, paths)| == 5 * |paths|
  {
    if paths != [] { PackageBodySize(app, paths[..|paths| - 1]); }
  }

  lemma {:induction false} PackageBodyAt(app: string, paths: seq<string>, i: nat)
    requires i < |paths|
    ensures StepsFor(app, paths[i], PackageBody(app, paths), 5 * i)
  {
    var n := |paths| - 1;
    var before := PackageBody(app, paths[..n]);
    var steps := PackageGrows(app, paths);
    if i < n {
      PackageBodyAt(app, paths[..n], i);
      StepsStay(app, paths[i], before, steps, 5 * i);
    } else {
      StepsMove(app, paths[n], before, steps, 0);
    }
  }

  lemma PackageGrows(app: string, paths: seq<string>) returns (steps: seq<Event>)
    requires paths != []
    ensures PackageBody(app, paths) == PackageBody(app, paths[..|paths| - 1]) + steps
    ensures |PackageBody(app, paths[..|paths| - 1])| == 5 * (|paths| - 1)
    ensures StepsFor(app, paths[|paths| - 1], steps, 0)
  {
    steps := PackageSteps(app, paths[|paths| - 1]);
    PackageBodySize(app, paths[..|paths| - 1]);
  }

  /** A package is refused only without a document; it is opened only on an empty stream
      and ends ready for analysis. */
  lemma PackageWrites(current: seq<Event>, cmd: Command)
    requires cmd.PackageDocuments?
    ensures DecidePackage(current, cmd).Ok? <==> cmd.paths != []
    ensures DecidePackage(current, cmd).Ok? ==>
              var batch := DecidePackage(current, cmd).value;
              && |batch| == (if current == [] then 1 else 0) + 5 * |cmd.paths| + 1
              && (current == [] ==> batch[0] == DocumentPackage(cmd.app, PackageCreated))
              && batch[|batch| - 1] == DocumentPackage(cmd.app, PackageReadyForAnalysis)
  {
    PackageBodySize(cmd.app, cmd.paths);
  }

  /** In between, every document takes its five steps, in the order of the documents. */
  lemma PackageTakesItsSteps(current: seq<Event>, cmd: Command, i: nat)
    requires cmd.PackageDocuments? && i < |cmd.paths|
    ensures StepsFor(cmd.app, cmd.paths[i], DecidePackage(current, cmd).value,
                     (if current == [] then 1 else 0) + 5 * i)
  {
    PackageBodyAt(cmd.app, cmd.paths, i);
    var opening := if current == [] then [DocumentPackage(cmd.app, PackageCreated)] else [];
    var body := PackageBody(cmd.app, cmd.paths);
    StepsMove(cmd.app, cmd.paths[i], opening, body, 5 * i);
    StepsStay(cmd.app, cmd.paths[i], opening + body, [DocumentPackage(cmd.app, PackageReadyForAnalysis)],
              |opening| + 5 * i);
  }

  lemma StepsStay(app: string, path: string, batch: seq<Event>, after: seq<Event>, at: nat)
    requires StepsFor(app, path, batch, at)
    ensures StepsFor(app, path, batch + after, at)
  {
  }

  lemma StepsMove(app: string, path: string, before: seq<Event>, batch: seq<Event>, at: nat)
    requires StepsFor(app, path, batch, at)
    ensures StepsFor(app, path, before + batch, |before| + at)
  {
  }

  /* ---------- sessions ---------- */

  lemma SessionIsAcceptedIff(s: SA.Session, cmd: Command)
    requires cmd.StartSession?
    ensures DecideSession(s, cmd).Ok? <==> !s.contextLoaded && cmd.tokens > 0 && cmd.replayFrom >= 0
  {
  }

  /** An accepted session start writes the start, a recovery iff its source names a prior
      session, and the context. */
  lemma SessionWrites(s: SA.Session, cmd: Command, prior: string)
    requires cmd.StartSession? && DecideSession(s, cmd).Ok?
    ensures var batch := DecideSession(s, cmd).value;
            && (|batch| == 2 || |batch| == 3) && batch[0] == AgentSessionStarted(cmd.agent, cmd.session)
            && batch[|batch| - 1] == AgentContextLoaded(cmd.agent, cmd.session, cmd.model, cmd.replayFrom, cmd.tokens)
            && (|batch| == 3 ==> batch[1].AgentSessionRecovered? && "prior_session_replay:" <= cmd.source)
            && (cmd.source == "prior_session_replay:" + prior ==>
                  if IsBlank(prior) then |batch| == 2
                  else |batch| == 3 && batch[1] == AgentSessionRecovered(cmd.agent, cmd.session, Strip(prior)))
  {
    StripMeaning(prior);
    if cmd.source == "prior_session_replay:" + prior { assert cmd.source[|REPLAY_PREFIX|..] == prior; }
  }

  /** An analysis is accepted iff the loan is open, the session is loaded with this model,
      and its numbers are in range; it writes one event with them. */
  lemma CreditWrites(s: SA.Session, l: LA.Loan, cmd: Command)
    requires cmd.CompleteCredit?
    ensures DecideCredit(s, l, cmd).Ok? <==>
            && !l.status.Empty? && !l.status.FinalApproved? && !l.status.FinalDeclined?
            && s.contextLoaded && cmd.model != "" && (s.modelVersion.Some? ==> s.modelVersion.value == cmd.model)
            && 0.0 <= cmd.confidence <= 1.0 && cmd.limit > 0.0 && cmd.durationMs > 0 && cmd.inputHash != ""
    ensures DecideCredit(s, l, cmd).Ok? ==>
              DecideCredit(s, l, cmd).value ==
              [CreditAnalysisCompleted(cmd.app, cmd.agent, cmd.session, Some(cmd.model), Some(cmd.limit),
                                       Some(cmd.confidence))]
  {
  }

  lemma FraudWrites(s: SA.Session, l: LA.Loan, cmd: Command)
    requires cmd.CompleteFraud?
    ensures DecideFraud(s, l, cmd).Ok? <==>
            && !l.status.Empty? && !l.status.FinalApproved? && !l.status.FinalDeclined?
            && s.contextLoaded && cmd.model != "" && (s.modelVersion.Some? ==> s.modelVersion.value == cmd.model)
            && 0.0 <= cmd.score <= 1.0 && cmd.inputHash != ""
    ensures DecideFraud(s, l, cmd).Ok? ==>
              DecideFraud(s, l, cmd).value == [FraudScreeningCompleted(cmd.app, cmd.agent, cmd.model, cmd.score)]
  {
  }
}
