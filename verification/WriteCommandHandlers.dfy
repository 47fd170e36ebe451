/** The handlers as they run: load, validate, build the batch, append. */
module WriteCommandHandlers {
  import opened Prelude
  import opened Events
  import opened EventStore
  import opened Handlers
  import opened Interleaving
  import LA = LoanAggregate
  import CA = ComplianceAggregate
  import SA = SessionAggregate

  function Snapshots(s: Store, needs: seq<string>): (loaded: seq<seq<Event>>)
    ensures |loaded| == |needs|
    ensures forall i | 0 <= i < |needs| :: loaded[i] == Load(s, needs[i])
  {
    seq(|needs|, i requires 0 <= i < |needs| => Load(s, needs[i]))
  }

  /** Who asked, when, and because of which event. */
  datatype Context = Context(now: int, correlation: Option<string>, causation: Option<nat>)

  /** One handler run without interference: its loads and its append on one state. */
  function Handled(s: Store, cmd: Command, ctx: Context): Result<Store, Error> {
    CommitOf(s, Op(cmd, Snapshots(s, Needs(cmd))), ctx.now, ctx.correlation, ctx.causation)
  }

  /** The analysis requests are caused by the last event of the package, which is the last of the log. */
  function CausedByThePackage(log: seq<StoredEvent>, ctx: Context): Context {
    if log == [] then ctx else ctx.(causation := Some(log[|log| - 1].id))
  }

  lemma PackageEndsTheLog(s: Store, cmd: Command, ctx: Context)
    requires ValidStore(s) && cmd.PackageDocuments? && Handled(s, cmd, ctx).Ok?
    ensures var log := Handled(s, cmd, ctx).value.log;
            && log != [] && log[|log| - 1].stream == DocumentStream(cmd.app)
            && log[|log| - 1].event == DocumentPackage(cmd.app, PackageReadyForAnalysis)
            && CausedByThePackage(log, ctx) == ctx.(causation := Some(log[|log| - 1].id))
  {
    var op := Op(cmd, Snapshots(s, Needs(cmd)));
    var batch := Decide(cmd, op.loaded).value;
    AppendEffect(s, RequestFor(op, batch, ctx.correlation, ctx.causation), ctx.now);
    assert batch[|batch| - 1] == DocumentPackage(cmd.app, PackageReadyForAnalysis);
  }

  /** What a caller sees: the new version and the new tables, or an error and no change. */
  ghost predicate Reported(before: Store, after: Store, target: string, spec: Result<Store, Error>,
                           r: Result<nat, Error>)
  {
    match spec
    case Ok(s) => after == s && r == Ok(StreamVersion(s, target))
    case Err(e) => after == before && r == Err(e)
  }

  class WriteCommandHandlers {
    const store: EventStore

    constructor (store: EventStore)
      ensures this.store == store
    {
      this.store := store;
    }

    method AppendBatch(cmd: Command, loaded: seq<seq<Event>>, batch: seq<Event>, ctx: Context)
      returns (r: Result<nat, Error>)
      requires |loaded| == |Needs(cmd)| && Decide(cmd, loaded) == Ok(batch)
      modifies store
      ensures Reported(old(store.State()), store.State(), Target(cmd),
                       CommitOf(old(store.State()), Op(cmd, loaded), ctx.now, ctx.correlation, ctx.causation), r)
    {
      r := store.AppendEvents(RequestFor(Op(cmd, loaded), batch, ctx.correlation, ctx.causation), ctx.now);
    }

    method LoadFor(cmd: Command) returns (loaded: seq<seq<Event>>)
      ensures loaded == Snapshots(store.State(), Needs(cmd))
    {
      loaded := [];
      var needs := Needs(cmd);
      for i := 0 to |needs|
        invariant |loaded| == i && forall j | 0 <= j < i :: loaded[j] == Load(store.State(), needs[j])
      {
        var events := store.LoadStream(needs[i]);
        loaded := loaded + [events];
      }
    }

    /** `handle_compliance_check`. */
    method HandleComplianceCheck(cmd: Command, ctx: Context) returns (r: Result<nat, Error>)
      requires cmd.CheckCompliance?
      modifies store
      ensures Reported(old(store.State()), store.State(), ComplianceStream(cmd.app),
                       Handled(old(store.State()), cmd, ctx), r)
    {
      var loaded := LoadFor(cmd);
      var record, ok := CA.ComplianceRecord.Replayed(loaded[0]);
      if !ok { return Err(DomainError); }
      var batch := DecideCheck(record, cmd);
      if batch.Err? { return Err(batch.error); }
      r := AppendBatch(cmd, loaded, batch.value, ctx);
    }

    method DecideCheck(record: CA.ComplianceRecord, cmd: Command) returns (batch: Result<seq<Event>, Error>)
      requires cmd.CheckCompliance?
      ensures batch == DecideCompliance(record.State(), cmd)
    {
      if cmd.ruleVersion == "" { return Err(DomainError); }
      if record.status == NotStarted && cmd.checks == [] { return Err(DomainError); }
      if record.regulationSet.GetOr("") != "" && record.regulationSet != Some(cmd.regulationSet) {
        return Err(DomainError);
      }
      if !cmd.passed && cmd.reason.GetOr("") == "" { return Err(DomainError); }
      var decided: seq<Event> := [];
      if record.status == NotStarted {
        decided := decided + [ComplianceCheckRequested(cmd.app, cmd.regulationSet, cmd.checks)];
      }
      if cmd.passed {
        decided := decided + [ComplianceRulePassed(cmd.app, cmd.rule, cmd.ruleVersion)];
      } else {
        decided := decided + [ComplianceRuleFailed(cmd.app, cmd.rule, cmd.ruleVersion, cmd.reason.GetOr(""))];
      }
      var mandatory := if record.status == NotStarted then CA.ToSet(cmd.checks) else record.mandatoryChecks;
      var passed, failed := record.passedChecks, record.failedChecks;
      if cmd.passed {
        passed := passed + {cmd.rule};
      } else {
        failed, passed := failed[cmd.rule := cmd.reason.GetOr("")], passed - {cmd.rule};
      }
      var projected := Pending;
      if failed != map[] { projected := Failed; }
      else if mandatory != {} && mandatory <= passed { projected := Cleared; }
      if (record.status == NotStarted || record.status == Pending) && (projected == Cleared || projected == Failed) {
        decided := decided
          + [ComplianceCheckCompleted(cmd.app, projected, |passed| + |failed|, |mandatory|, failed.Keys)];
      }
      assert decided == Opening(record.State(), cmd) + [RuleEvent(cmd)] + Closing(record.State(), cmd);
      batch := Ok(decided);
    }

    /** `handle_generate_decision`. */
    method HandleGenerateDecision(cmd: Command, ctx: Context) returns (r: Result<nat, Error>)
      requires cmd.GenerateDecision?
      modifies store
      ensures Reported(old(store.State()), store.State(), LoanStream(cmd.app), Handled(old(store.State()), cmd, ctx), r)
    {
      var loaded := LoadFor(cmd);
      var loan, loanOk := LA.LoanApplication.Replayed(loaded[0]);
      var record, recordOk := CA.ComplianceRecord.Replayed(loaded[1]);
      if !loanOk || !recordOk { return Err(DomainError); }
      var contributing := loaded[2..];
      var assessed := ExtractAssessedMaxLimit(contributing);
      var recommendation := LA.ValidateDecision(loan.State(), cmd.asked, cmd.confidence, record.status, cmd.sessions,
                                                contributing, assessed);
      if recommendation.Err? { return Err(recommendation.error); }
      var batch := [
        DecisionRequested(cmd.app),
        DecisionGenerated(cmd.app, recommendation.value, Some(cmd.confidence), cmd.sessions, Some(record.status),
                          assessed),
        HumanReviewRequested(cmd.app)];
      r := AppendBatch(cmd, loaded, batch, ctx);
    }

    static method ExtractAssessedMaxLimit(streams: seq<seq<Event>>) returns (m: Option<real>)
      ensures m == AssessedMax(Together(streams))
    {
      var events: seq<Event> := [];
      for i := 0 to |streams|
        invariant events == Together(streams[..i])
      {
        assert streams[..i + 1][..i] == streams[..i];
        events := events + streams[i];
      }
      assert streams[..|streams|] == streams;
      m := None;
      for i := 0 to |events|
        invariant m == AssessedMax(events[..i])
      {
        assert events[..i + 1][..i] == events[..i];
        if !events[i].CreditAnalysisCompleted? { continue; }
        if events[i].limit.None? { continue; }
        if m.None? || m.value < events[i].limit.value { m := events[i].limit; }
      }
      assert events[..|events|] == events;
    }

    /** `handle_human_review_completed`. */
    method HandleHumanReviewCompleted(cmd: Command, ctx: Context) returns (r: Result<nat, Error>)
      requires cmd.CompleteReview?
      modifies store
      ensures Reported(old(store.State()), store.State(), LoanStream(cmd.app), Handled(old(store.State()), cmd, ctx), r)
    {
      var loaded := LoadFor(cmd);
      var loan, loanOk := LA.LoanApplication.Replayed(loaded[0]);
      var record, recordOk := CA.ComplianceRecord.Replayed(loaded[1]);
      if !loanOk || !recordOk { return Err(DomainError); }
      var decision := LA.ValidateReview(loan.State(), cmd.decision, cmd.override, cmd.overrideReason, cmd.approved,
                                        record.status);
      if decision.Err? { return Err(decision.error); }
      var decided := [HumanReviewCompleted(cmd.app, decision.value, cmd.override, cmd.overrideReason)];
      if decision.value == Approve {
        if cmd.approved.value <= 0.0 { return Err(DomainError); }
        decided := decided + [ApplicationApproved(cmd.app, cmd.approved.value)];
      } else {
        decided := decided + [ApplicationDeclined(cmd.app)];
      }
      assert decided == [decided[0], decided[1]];
      r := AppendBatch(cmd, loaded, decided, ctx);
    }

    /** `handle_start_agent_session`. */
    method HandleStartAgentSession(cmd: Command, ctx: Context) returns (r: Result<nat, Error>)
      requires cmd.StartSession?
      modifies store
      ensures Reported(old(store.State()), store.State(), SessionStream(cmd.agent, cmd.session),
                       Handled(old(store.State()), cmd, ctx), r)
    {
      var loaded := LoadFor(cmd);
      var session, ok := SA.AgentSession.Replayed(loaded[0]);
      if !ok { return Err(DomainError); }
      var batch := DecideStart(session, cmd);
      if batch.Err? { return Err(batch.error); }
      r := AppendBatch(cmd, loaded, batch.value, ctx);
    }

    method DecideStart(session: SA.AgentSession, cmd: Command) returns (batch: Result<seq<Event>, Error>)
      requires cmd.StartSession?
      ensures batch == DecideSession(session.State(), cmd)
    {
      if session.contextLoaded || cmd.tokens <= 0 || cmd.replayFrom < 0 { return Err(DomainError); }
      var decided := [AgentSessionStarted(cmd.agent, cmd.session)];
      var from := RecoveredFrom(cmd.source);
      if from != "" { decided := decided + [AgentSessionRecovered(cmd.agent, cmd.session, from)]; }
      decided := decided + [AgentContextLoaded(cmd.agent, cmd.session, cmd.model, cmd.replayFrom, cmd.tokens)];
      assert [AgentSessionStarted(cmd.agent, cmd.session)] + [] == [AgentSessionStarted(cmd.agent, cmd.session)];
      batch := Ok(decided);
    }

    /** `handle_credit_analysis_completed` and `handle_fraud_screening_completed`. */
    method HandleAnalysis(cmd: Command, ctx: Context) returns (r: Result<nat, Error>)
      requires cmd.CompleteCredit? || cmd.CompleteFraud?
      modifies store
      ensures Reported(old(store.State()), store.State(), Target(cmd), Handled(old(store.State()), cmd, ctx), r)
    {
      var loaded := LoadFor(cmd);
      var session, sessionOk := SA.AgentSession.Replayed(loaded[0]);
      var loan, loanOk := LA.LoanApplication.Replayed(loaded[1]);
      if !sessionOk || !loanOk { return Err(DomainError); }
      var batch := if cmd.CompleteCredit? then DecideCredit(session.State(), loan.State(), cmd)
                   else DecideFraud(session.State(), loan.State(), cmd);
      if batch.Err? { return Err(batch.error); }
      r := AppendBatch(cmd, loaded, batch.value, ctx);
    }

    /** `handle_submit_application`, up to its first append. */
    method SubmitFirst(cmd: Command, ctx: Context) returns (r: Result<nat, Error>)
      requires cmd.Submit?
      modifies store
      ensures Reported(old(store.State()), store.State(), LoanStream(cmd.app), Handled(old(store.State()), cmd, ctx), r)
    {
      var loaded := LoadFor(cmd);
      var loan, ok := LA.LoanApplication.Replayed(loaded[0]);
      if !ok || loan.status != LA.Empty || cmd.amount <= 0.0 || (cmd.process && cmd.paths == []) {
        return Err(DomainError);
      }
      var uploads: seq<Event> := [];
      for i := 0 to |cmd.paths|
        invariant uploads == Uploads(cmd.app, cmd.paths[..i])
      {
        assert cmd.paths[..i + 1][..i] == cmd.paths[..i];
        uploads := uploads + [DocumentUploadRequested(cmd.app, cmd.paths[i]), DocumentUploaded(cmd.app, cmd.paths[i])];
      }
      assert cmd.paths[..|cmd.paths|] == cmd.paths;
      var decided := [ApplicationSubmitted(cmd.app, cmd.amount)] + uploads;
      if !cmd.process { decided := decided + [CreditAnalysisRequested(cmd.app), FraudScreeningRequested(cmd.app)]; }
      else { decided := decided + []; }
      r := AppendBatch(cmd, loaded, decided, ctx);
    }

    /** `_append_document_package_events`. */
    method AppendDocumentPackage(cmd: Command, ctx: Context) returns (r: Result<nat, Error>)
      requires cmd.PackageDocuments?
      modifies store
      ensures Reported(old(store.State()), store.State(), DocumentStream(cmd.app),
                       Handled(old(store.State()), cmd, ctx), r)
    {
      if cmd.paths == [] { return Err(DomainError); }
      var loaded := LoadFor(cmd);
      var opening: seq<Event> := [];
      if loaded[0] == [] { opening := [DocumentPackage(cmd.app, PackageCreated)]; }
      var body: seq<Event> := [];
      for i := 0 to |cmd.paths|
        invariant body == PackageBody(cmd.app, cmd.paths[..i])
      {
        assert cmd.paths[..i + 1][..i] == cmd.paths[..i];
        body := body + PackageSteps(cmd.app, cmd.paths[i]);
      }
      assert cmd.paths[..|cmd.paths|] == cmd.paths;
      r := AppendBatch(cmd, loaded, opening + body + [DocumentPackage(cmd.app, PackageReadyForAnalysis)], ctx);
    }

    /** `handle_submit_application`: with documents, the package and then the
        analysis requests follow, each only if the append before it succeeded. */
    method HandleSubmitApplication(cmd: Command, ctx: Context) returns (r: Result<nat, Error>)
      requires cmd.Submit?
      modifies store
      ensures var first := Handled(old(store.State()), cmd, ctx);
              if first.Err? || !cmd.process then
                Reported(old(store.State()), store.State(), LoanStream(cmd.app), first, r)
              else
                var version := StreamVersion(first.value, LoanStream(cmd.app));
                var second := Handled(first.value, PackageDocuments(cmd.app, cmd.paths, version), ctx);
                if second.Err? then store.State() == first.value && r == Err(second.error)
                else Reported(second.value, store.State(), LoanStream(cmd.app),
                              Handled(second.value, RequestAnalysis(cmd.app, version),
                                      CausedByThePackage(second.value.log, ctx)), r)
    {
      r := SubmitFirst(cmd, ctx);
      if r.Err? || !cmd.process { return; }
      var version := r.value;
      var packaged := AppendDocumentPackage(PackageDocuments(cmd.app, cmd.paths, version), ctx);
      if packaged.Err? { return Err(packaged.error); }
      r := AppendBatch(RequestAnalysis(cmd.app, version), [], AnalysisRequests(cmd.app),
                       CausedByThePackage(store.log, ctx));
    }
  }
}
