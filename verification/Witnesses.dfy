/** For every guard a command that its handler accepts and that replay then refuses:
    the failing side of each exact condition is not empty. */
module Witnesses {
  import opened Prelude
  import opened Events
  import opened Replaying
  import opened Handlers
  import LA = LoanAggregate
  import CA = ComplianceAggregate
  import SA = SessionAggregate

  /** The handler accepts the command on what it loads, though its guard does not hold. */
  predicate AcceptedUnguarded(cmd: Command, loaded: seq<seq<Event>>) {
    |loaded| == |Needs(cmd)| && Decide(cmd, loaded).Ok? && !Guard(cmd, loaded)
  }

  lemma TwoEvents<S>(step: (S, Event) -> Result<S, Error>, start: S, e: Event, f: Event)
    ensures Replay(step, start, [e, f]) ==
            match step(start, e)
            case Ok(s) => step(s, f)
            case Err(x) => Err(x)
  {
    ReplayOne(step, start, e);
    ReplayMore(step, start, [e], f);
    assert [e, f] == [e] + [f];
  }

  lemma ClearedRecord(app: string, regulations: string, rule: string, version: string)
    requires !IsBlank(version)
    ensures CA.ReplayRecord([ComplianceCheckRequested(app, regulations, [rule]),
                             ComplianceRulePassed(app, rule, version)]) ==
            Ok(CA.Compliance(Some(app), Some(regulations), {rule}, {rule}, map[], Cleared))
  {
    assert CA.ToSet([rule]) == {rule};
    TwoEvents(CA.Step, CA.NEW_RECORD, ComplianceCheckRequested(app, regulations, [rule]),
              ComplianceRulePassed(app, rule, version));
    assert {} + {rule} == {rule};
  }

  /** An approval of a SUBMITTED loan, on a cleared record and one contributing session. */
  lemma DecisionWhileSubmitted(app: string, amount: real, regulations: string, rule: string, version: string,
                               agent: string, session: string, model: string, limit: real)
    requires amount > 0.0 && limit > 0.0 && !IsBlank(version)
    ensures var cmd := GenerateDecision(app, Approve, 0.9, [SessionStream(agent, session)]);
            var loan := [ApplicationSubmitted(app, amount)];
            var record := [ComplianceCheckRequested(app, regulations, [rule]),
                           ComplianceRulePassed(app, rule, version)];
            var work := [AgentContextLoaded(agent, session, model, 0, 1),
                         CreditAnalysisCompleted(app, agent, session, Some(model), Some(limit), Some(0.9))];
            AcceptedUnguarded(cmd, [loan, record, work])
  {
    var cmd := GenerateDecision(app, Approve, 0.9, [SessionStream(agent, session)]);
    var submitted := ApplicationSubmitted(app, amount);
    var work := [AgentContextLoaded(agent, session, model, 0, 1),
                 CreditAnalysisCompleted(app, agent, session, Some(model), Some(limit), Some(0.9))];
    ReplayOne(LA.Step, LA.NEW_LOAN, submitted);
    ClearedRecord(app, regulations, rule, version);
    var l := LA.ReplayLoan([submitted]).value;
    var c := CA.Compliance(Some(app), Some(regulations), {rule}, {rule}, map[], Cleared);
    SessionHelps(l, work, limit);
    assert DecideDecision(l, c, [work], cmd).Ok?;
  }

  /** A loaded session with one analysis contributes to its application's decision. */
  lemma SessionHelps(l: LA.Loan, work: seq<Event>, limit: real)
    requires |work| == 2 && work[0].AgentContextLoaded? && HasLimit(work[1]) && work[1].limit == Some(limit)
    requires l.appId == Some(work[1].appId)
    ensures LA.Contributes(l, work) && AssessedMax(Together([work])).Some?
  {
    assert Together([work]) == [] + work == work by { assert [work][..0] == []; }
    assert HasLimit(Together([work])[1]);
  }

  /** A decline of a loan that awaits its analysis. */
  lemma ReviewWithoutDecision(app: string, amount: real)
    requires amount > 0.0
    ensures AcceptedUnguarded(CompleteReview(app, Decline, false, None, None),
                              [[ApplicationSubmitted(app, amount), CreditAnalysisRequested(app)], []])
  {
    TwoEvents(LA.Step, LA.NEW_LOAN, ApplicationSubmitted(app, amount), CreditAnalysisRequested(app));
  }

  /** A pass of a rule that failed before. */
  lemma PassOfAFailedRule(app: string, regulations: string, rule: string, version: string, reason: string)
    requires regulations != "" && !IsBlank(version) && !IsBlank(reason)
    ensures AcceptedUnguarded(CheckCompliance(app, regulations, rule, version, true, [rule], None),
                              [[ComplianceCheckRequested(app, regulations, [rule]),
                                ComplianceRuleFailed(app, rule, version, reason)]])
  {
    assert CA.ToSet([rule]) == {rule};
    TwoEvents(CA.Step, CA.NEW_RECORD, ComplianceCheckRequested(app, regulations, [rule]),
              ComplianceRuleFailed(app, rule, version, reason));
    assert version != "";
  }

  /** A first check of a rule that is not among the required ones. */
  lemma RuleOutsideTheSet(app: string, regulations: string, rule: string, other: string, version: string)
    requires rule != other && version != ""
    ensures AcceptedUnguarded(CheckCompliance(app, regulations, rule, version, true, [other], None), [[]])
  {
    assert CA.ReplayRecord([]) == Ok(CA.NEW_RECORD);
    assert rule !in CA.ToSet([other]);
  }

  /** A rule version or a failure reason of white space only. */
  lemma BlankWords(app: string, regulations: string, rule: string, version: string, blank: string)
    requires blank != "" && IsBlank(blank) && version != ""
    ensures AcceptedUnguarded(CheckCompliance(app, regulations, rule, blank, true, [rule], None), [[]])
    ensures AcceptedUnguarded(CheckCompliance(app, regulations, rule, version, false, [rule], Some(blank)), [[]])
  {
    assert CA.ReplayRecord([]) == Ok(CA.NEW_RECORD);
  }

  /** A session whose model version is blank. */
  lemma BlankModel(agent: string, session: string, source: string, blank: string)
    requires IsBlank(blank)
    ensures AcceptedUnguarded(StartSession(agent, session, source, 0, 1, blank), [[]])
  {
    assert SA.ReplaySession([]) == Ok(SA.NEW_SESSION);
  }
}
