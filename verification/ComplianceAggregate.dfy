/** The compliance record aggregate and the laws of its status. */
module ComplianceAggregate {
  import opened Prelude
  import opened Events
  import opened Replaying

  datatype Compliance = Compliance(
    appId: Option<string>, regulationSet: Option<string>, mandatory: set<string>,
    passed: set<string>, failed: map<string, string>, status: ComplianceStatus)

  const NEW_RECORD := Compliance(None, None, {}, {}, map[], NotStarted)

  /** The status that the three collections call for once a record is started. */
  function StatusOf(mandatory: set<string>, passed: set<string>, failed: map<string, string>): ComplianceStatus {
    if failed != map[] then Failed
    else if mandatory != {} && mandatory <= passed then Cleared
    else Pending
  }

  function Recomputed(c: Compliance): Compliance {
    c.(status := StatusOf(c.mandatory, c.passed, c.failed))
  }

  predicate IsMember(c: Compliance, rule: string) {
    c.mandatory != {} ==> rule in c.mandatory
  }

  function ToSet(items: seq<string>): set<string> { set s | s in items }

  function Step(c: Compliance, e: Event): Result<Compliance, Error> {
    match e
    case ComplianceCheckRequested(app, regulationSet, checks) =>
      if !c.status.NotStarted? || checks == [] then Err(DomainError)
      else Ok(c.(appId := Some(app), regulationSet := Some(regulationSet), mandatory := ToSet(checks),
                 status := Pending))
    case ComplianceRulePassed(_, rule, ruleVersion) =>
      if c.status.NotStarted? || IsBlank(ruleVersion) || !IsMember(c, rule) || rule in c.failed then Err(DomainError)
      else Ok(Recomputed(c.(passed := c.passed + {rule})))
    case ComplianceRuleFailed(_, rule, ruleVersion, reason) =>
      if c.status.NotStarted? || IsBlank(ruleVersion) || !IsMember(c, rule) || IsBlank(reason) then Err(DomainError)
      else Ok(Recomputed(c.(failed := c.failed[rule := Strip(reason)], passed := c.passed - {rule})))
    case _ => Ok(c)
  }

  function ReplayRecord(events: seq<Event>): Result<Compliance, Error> {
    Replay(Step, NEW_RECORD, events)
  }

  /** What every replayed record satisfies: rules are judged within the mandatory
      set, never both ways, and the status says what the collections say. */
  predicate Consistent(c: Compliance) {
    && (c.status.NotStarted? ==> c.mandatory == {} && c.passed == {} && c.failed == map[])
    && (!c.status.NotStarted? ==> c.mandatory != {} && c.status == StatusOf(c.mandatory, c.passed, c.failed))
    && c.passed <= c.mandatory && c.failed.Keys <= c.mandatory && c.passed !! c.failed.Keys
  }

  lemma StepKeepsConsistent(c: Compliance, e: Event)
    requires Consistent(c) && Step(c, e).Ok?
    ensures Consistent(Step(c, e).value)
  {
    if e.ComplianceCheckRequested? { assert e.checks[0] in ToSet(e.checks); }
  }

  lemma {:induction false} ReplayedIsConsistent(events: seq<Event>)
    requires ReplayRecord(events).Ok?
    ensures Consistent(ReplayRecord(events).value)
  {
    if events != [] {
      ReplayedIsConsistent(events[..|events| - 1]);
      StepKeepsConsistent(ReplayRecord(events[..|events| - 1]).value, events[|events| - 1]);
    }
  }

  /** The only ways a status can move: NOT_STARTED to anything, PENDING to a
      verdict, CLEARED to FAILED; FAILED is absorbing. */
  predicate Reaches(a: ComplianceStatus, b: ComplianceStatus) {
    match a
    case NotStarted => true
    case Pending => !b.NotStarted?
    case Cleared => b.Cleared? || b.Failed?
    case Failed => b.Failed?
  }

  lemma StepMovesForward(c: Compliance, e: Event)
    requires Consistent(c) && Step(c, e).Ok?
    ensures Reaches(c.status, Step(c, e).value.status)
    ensures c.failed.Keys <= Step(c, e).value.failed.Keys
  {
  }

  /** Later events never take a status back: FAILED stays, CLEARED stays or fails. */
  lemma {:induction false} ReplayMovesForward(prefix: seq<Event>, whole: seq<Event>)
    requires prefix <= whole && ReplayRecord(whole).Ok?
    ensures ReplayRecord(prefix).Ok?
    ensures Reaches(ReplayRecord(prefix).value.status, ReplayRecord(whole).value.status)
    ensures ReplayRecord(prefix).value.failed.Keys <= ReplayRecord(whole).value.failed.Keys
  {
    if |prefix| < |whole| {
      var before := whole[..|whole| - 1];
      assert prefix <= before;
      ReplayMovesForward(prefix, before);
      ReplayedIsConsistent(before);
      StepMovesForward(ReplayRecord(before).value, whole[|whole| - 1]);
    } else {
      assert prefix == whole;
    }
  }

  /* ---------- what a record tells of its events, in their own words ---------- */

  function IsRequest(): Event -> bool { (e: Event) => e.ComplianceCheckRequested? }

  function IsRequestOf(rule: string): Event -> bool {
    (e: Event) => e.ComplianceCheckRequested? && rule in e.checks
  }

  function IsFailure(): Event -> bool { (e: Event) => e.ComplianceRuleFailed? }

  function IsFailureOf(rule: string): Event -> bool { (e: Event) => e.ComplianceRuleFailed? && e.ruleId == rule }

  function IsPassOf(rule: string): Event -> bool { (e: Event) => e.ComplianceRulePassed? && e.ruleId == rule }

  /** A rule is mandatory iff a check that requires it was requested, failed iff an event
      says so, and passed iff an event says so and none that it failed. */
  lemma {:induction false} CollectionsTellTheEvents(events: seq<Event>, rule: string)
    requires ReplayRecord(events).Ok?
    ensures var c := ReplayRecord(events).value;
            && (rule in c.mandatory <==> Has(events, IsRequestOf(rule)))
            && (rule in c.failed <==> Has(events, IsFailureOf(rule)))
            && (rule in c.passed <==> Has(events, IsPassOf(rule)) && !Has(events, IsFailureOf(rule)))
            && (c.status.NotStarted? <==> !Has(events, IsRequest()))
            && (c.failed != map[] <==> Has(events, IsFailure()))
  {
    if events != [] {
      var before, e := events[..|events| - 1], events[|events| - 1];
      assert events == before + [e];
      CollectionsTellTheEvents(before, rule);
      ReplayedIsConsistent(before);
      HasMore(before, e, IsRequest());
      HasMore(before, e, IsRequestOf(rule));
      HasMore(before, e, IsFailure());
      HasMore(before, e, IsFailureOf(rule));
      HasMore(before, e, IsPassOf(rule));
      OneMoreTells(ReplayRecord(before).value, e, rule);
    }
  }

  /** What one event that applies does to the record's view of one rule. */
  lemma OneMoreTells(c: Compliance, e: Event, rule: string)
    requires Consistent(c) && Step(c, e).Ok?
    ensures var c' := Step(c, e).value;
            && (rule in c'.mandatory <==> rule in c.mandatory || IsRequestOf(rule)(e))
            && (rule in c'.failed <==> rule in c.failed || IsFailureOf(rule)(e))
            && (rule in c'.passed <==> (rule in c.passed || IsPassOf(rule)(e)) && !IsFailureOf(rule)(e))
            && (IsPassOf(rule)(e) ==> rule !in c.failed)
            && (c'.status.NotStarted? <==> c.status.NotStarted? && !IsRequest()(e))
            && (c'.failed != map[] <==> c.failed != map[] || IsFailure()(e))
  {
    if e.ComplianceRuleFailed? { assert e.ruleId in Step(c, e).value.failed; }
  }

  /** The status, from the events alone: FAILED as soon as some rule failed; CLEARED when
      requested, nothing failed and every required rule passed; PENDING when requested and
      neither holds. */
  lemma StatusTellsTheEvents(events: seq<Event>)
    requires ReplayRecord(events).Ok?
    ensures var status, requested, failed := ReplayRecord(events).value.status, Has(events, IsRequest()),
                                             Has(events, IsFailure());
            var allPassed := forall rule | Has(events, IsRequestOf(rule)) :: Has(events, IsPassOf(rule));
            && (status.NotStarted? <==> !requested)
            && (status.Failed? <==> failed)
            && (status.Cleared? <==> requested && !failed && allPassed)
            && (status.Pending? <==> requested && !failed && !allPassed)
  {
    var c := ReplayRecord(events).value;
    ReplayedIsConsistent(events);
    CollectionsTellTheEvents(events, "");
    forall rule {:trigger rule in c.mandatory} {:trigger Has(events, IsRequestOf(rule))}
      ensures rule in c.mandatory <==> Has(events, IsRequestOf(rule))
      ensures !Has(events, IsFailure()) ==> (rule in c.passed <==> Has(events, IsPassOf(rule)))
    {
      CollectionsTellTheEvents(events, rule);
      if Has(events, IsFailureOf(rule)) { FailureIsFailure(events, rule); }
    }
  }

  lemma FailureIsFailure(events: seq<Event>, rule: string)
    requires Has(events, IsFailureOf(rule))
    ensures Has(events, IsFailure())
  {
    var i :| 0 <= i < |events| && IsFailureOf(rule)(events[i]);
    assert IsFailure()(events[i]);
  }

  class ComplianceRecord {
    var appId: Option<string>
    var regulationSet: Option<string>
    var mandatoryChecks: set<string>
    var passedChecks: set<string>
    var failedChecks: map<string, string>
    var status: ComplianceStatus
    var version: nat

    function State(): Compliance
      reads this
    {
      Compliance(appId, regulationSet, mandatoryChecks, passedChecks, failedChecks, status)
    }

    constructor ()
      ensures State() == NEW_RECORD && version == 0
    {
      appId, regulationSet, mandatoryChecks, passedChecks, failedChecks := None, None, {}, {}, map[];
      status, version := NotStarted, 0;
    }

    method RecomputeStatus()
      modifies this`status
      ensures State() == Recomputed(old(State()))
    {
      if failedChecks != map[] { status := Failed; return; }
      if mandatoryChecks != {} && mandatoryChecks <= passedChecks { status := Cleared; return; }
      status := Pending;
    }

    method Apply(e: Event, position: nat) returns (ok: bool)
      modifies this
      ensures ok <==> Step(old(State()), e).Ok?
      ensures ok ==> State() == Step(old(State()), e).value && version == position
    {
      match e {
        case ComplianceCheckRequested(app, regulations, checks) =>
          if status != NotStarted || checks == [] { return false; }
          appId, regulationSet, mandatoryChecks, status := Some(app), Some(regulations), ToSet(checks), Pending;
        case ComplianceRulePassed(_, rule, ruleVersion) =>
          if status == NotStarted || IsBlank(ruleVersion) { return false; }
          if mandatoryChecks != {} && rule !in mandatoryChecks { return false; }
          if rule in failedChecks { return false; }
          passedChecks := passedChecks + {rule};
          RecomputeStatus();
        case ComplianceRuleFailed(_, rule, ruleVersion, reason) =>
          if status == NotStarted || IsBlank(ruleVersion) { return false; }
          if mandatoryChecks != {} && rule !in mandatoryChecks { return false; }
          if IsBlank(reason) { return false; }
          failedChecks := failedChecks[rule := Strip(reason)];
          passedChecks := passedChecks - {rule};
          RecomputeStatus();
        case _ =>
      }
      version := position;
      ok := true;
    }

    static method Replayed(events: seq<Event>) returns (record: ComplianceRecord, ok: bool)
      ensures fresh(record)
      ensures ok <==> ReplayRecord(events).Ok?
      ensures ok ==> record.State() == ReplayRecord(events).value && record.version == |events|
    {
      record := new ComplianceRecord();
      ok := true;
      for i := 0 to |events|
        invariant fresh(record)
        invariant ok && Replay(Step, NEW_RECORD, events[..i]) == Ok(record.State()) && record.version == i
      {
        assert events[..i + 1] == events[..i] + [events[i]];
        ReplayMore(Step, NEW_RECORD, events[..i], events[i]);
        ok := record.Apply(events[i], i + 1);
        if !ok {
          assert events == events[..i + 1] + events[i + 1..];
          ReplayConcat(Step, NEW_RECORD, events[..i + 1], events[i + 1..]);
          return;
        }
      }
      assert events[..|events|] == events;
    }
  }
}
