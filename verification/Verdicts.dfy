/** The completion events of a compliance stream: when one is written, how many
    there are, and what each says. */
module Verdicts {
  import opened Prelude
  import opened Events
  import opened Replaying
  import opened Handlers
  import CA = ComplianceAggregate

  function Completions(events: seq<Event>): nat {
    if events == [] then 0
    else Completions(events[..|events| - 1]) + if events[|events| - 1].ComplianceCheckCompleted? then 1 else 0
  }

  /** The completion event `e` reports the record as it stands. */
  predicate Reports(c: CA.Compliance, e: Event)
    requires e.ComplianceCheckCompleted?
  {
    && e.verdict == c.status && (c.status.Cleared? || c.status.Failed?)
    && e.completedChecks == |c.passed| + |c.failed| && e.totalChecks == |c.mandatory|
    && e.failedRules == c.failed.Keys
    && e.completedChecks <= e.totalChecks
    && (e.verdict.Cleared? ==> e.completedChecks == e.totalChecks)
  }

  /** Every completion event reports the record replayed from the events before it. */
  predicate Truthful(events: seq<Event>) {
    events == [] ||
    var before, e := events[..|events| - 1], events[|events| - 1];
    && Truthful(before)
    && (e.ComplianceCheckCompleted? ==> CA.ReplayRecord(before).Ok? && Reports(CA.ReplayRecord(before).value, e))
  }

  /** A compliance stream as the handler leaves it: replayable, with no completion
      event while undecided and exactly one, truthful, once CLEARED or FAILED. */
  predicate WellJudged(events: seq<Event>) {
    && CA.ReplayRecord(events).Ok?
    && Truthful(events)
    && var status := CA.ReplayRecord(events).value.status;
       Completions(events) == if status.Cleared? || status.Failed? then 1 else 0
  }

  lemma OneMore(events: seq<Event>, e: Event)
    ensures Completions(events + [e]) == Completions(events) + if e.ComplianceCheckCompleted? then 1 else 0
    ensures Truthful(events + [e]) <==>
              && Truthful(events)
              && (e.ComplianceCheckCompleted? ==>
                    CA.ReplayRecord(events).Ok? && Reports(CA.ReplayRecord(events).value, e))
  {
    assert (events + [e])[..|events|] == events;
  }

  lemma CountsAgree(c: CA.Compliance)
    requires CA.Consistent(c) && (c.status.Cleared? || c.status.Failed?)
    ensures |c.passed| + |c.failed| <= |c.mandatory|
    ensures c.status.Cleared? ==> |c.passed| + |c.failed| == |c.mandatory|
  {
    var judged := c.passed + c.failed.Keys;
    assert |judged| == |c.passed| + |c.failed.Keys|;
    SubsetSize(judged, c.mandatory);
    if c.status.Cleared? { assert c.passed == c.mandatory; }
  }

  lemma {:induction false} SubsetSize<T>(a: set<T>, b: set<T>)
    requires a <= b
    ensures |a| <= |b|
  {
    if x :| x in a { SubsetSize(a - {x}, b - {x}); }
  }

  /** The events before the completion event extend a well-judged stream with the
      forecast record and no further completion. */
  lemma JudgedPart(events: seq<Event>, c: CA.Compliance, cmd: Command)
    requires WellJudged(events) && CA.ReplayRecord(events) == Ok(c)
    requires cmd.CheckCompliance? && DecideCompliance(c, cmd).Ok? && ComplianceGuard(c, cmd)
    ensures var judged := events + Opening(c, cmd) + [RuleEvent(cmd)];
            && Completions(judged) == Completions(events) && Truthful(judged)
            && CA.ReplayRecord(judged) == CA.Step(Opened(c, cmd), RuleEvent(cmd))
  {
    CA.ReplayedIsConsistent(events);
    OpeningReplays(c, cmd);
    var opening := Opening(c, cmd);
    var begun := events + opening;
    ReplayConcat(CA.Step, CA.NEW_RECORD, events, opening);
    if opening == [] {
      assert begun == events;
    } else {
      assert opening == [opening[0]];
      OneMore(events, opening[0]);
    }
    OneMore(begun, RuleEvent(cmd));
    ReplayMore(CA.Step, CA.NEW_RECORD, begun, RuleEvent(cmd));
  }

  /** The record after the rule event is the forecast one, and a completion event
      is due exactly when that reaches the first verdict. */
  lemma AfterRule(c: CA.Compliance, cmd: Command)
    requires cmd.CheckCompliance? && CA.Consistent(c) && DecideCompliance(c, cmd).Ok? && ComplianceGuard(c, cmd)
    ensures CA.Step(Opened(c, cmd), RuleEvent(cmd)).Ok?
    ensures var after, closing := CA.Step(Opened(c, cmd), RuleEvent(cmd)).value, Closing(c, cmd);
            && CA.Reaches(c.status, after.status) && !after.status.NotStarted?
            && if (after.status.Cleared? || after.status.Failed?) && !(c.status.Cleared? || c.status.Failed?)
               then |closing| == 1 && closing[0].ComplianceCheckCompleted? && Reports(after, closing[0])
               else closing == []
  {
    RuleApplies(c, cmd);
    OpeningReplays(c, cmd);
    var after := CA.Step(Opened(c, cmd), RuleEvent(cmd)).value;
    CA.StepMovesForward(Opened(c, cmd), RuleEvent(cmd));
    CA.StepKeepsConsistent(Opened(c, cmd), RuleEvent(cmd));
    if after.status.Cleared? || after.status.Failed? { CountsAgree(after); }
    assert |after.failed| == |after.failed.Keys|;
    assert |ForecastOf(c, cmd).failed| == |ForecastOf(c, cmd).failed.Keys|;
  }

  predicate Decided(status: ComplianceStatus) { status.Cleared? || status.Failed? }

  /** Closing a truthful stream with a due, truthful completion makes it well judged. */
  lemma ClosingJudges(judged: seq<Event>, closing: seq<Event>)
    requires CA.ReplayRecord(judged).Ok? && Truthful(judged) && Completions(judged) <= 1
    requires var after := CA.ReplayRecord(judged).value;
             if Decided(after.status) && Completions(judged) == 0
             then |closing| == 1 && closing[0].ComplianceCheckCompleted? && Reports(after, closing[0])
             else closing == [] && (Completions(judged) == 1 ==> Decided(after.status))
    ensures WellJudged(judged + closing)
  {
    if closing == [] {
      assert judged + closing == judged;
    } else {
      assert closing == [closing[0]];
      CompletionJudges(judged, closing[0]);
    }
  }

  lemma CompletionJudges(judged: seq<Event>, e: Event)
    requires CA.ReplayRecord(judged).Ok? && Truthful(judged) && Completions(judged) == 0
    requires e.ComplianceCheckCompleted? && Reports(CA.ReplayRecord(judged).value, e)
    ensures WellJudged(judged + [e])
  {
    OneMore(judged, e);
    ReplayMore(CA.Step, CA.NEW_RECORD, judged, e);
    assert CA.ReplayRecord(judged + [e]) == CA.ReplayRecord(judged);
  }

  /** Every guarded check keeps its stream well judged. */
  lemma CheckKeepsWellJudged(events: seq<Event>, cmd: Command)
    requires WellJudged(events) && cmd.CheckCompliance?
    requires DecideCompliance(CA.ReplayRecord(events).value, cmd).Ok?
    requires ComplianceGuard(CA.ReplayRecord(events).value, cmd)
    ensures WellJudged(events + DecideCompliance(CA.ReplayRecord(events).value, cmd).value)
  {
    var c := CA.ReplayRecord(events).value;
    CA.ReplayedIsConsistent(events);
    JudgedPart(events, c, cmd);
    AfterRule(c, cmd);
    ClosingJudges(events + Opening(c, cmd) + [RuleEvent(cmd)], Closing(c, cmd));
    assert events + (Opening(c, cmd) + [RuleEvent(cmd)] + Closing(c, cmd)) ==
           events + Opening(c, cmd) + [RuleEvent(cmd)] + Closing(c, cmd);
  }
}
