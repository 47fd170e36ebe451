/** The agent session aggregate. */
module SessionAggregate {
  import opened Prelude
  import opened Events
  import opened Replaying

  datatype Session = Session(
    agentId: Option<string>, sessionId: Option<string>, contextLoaded: bool,
    modelVersion: Option<string>, outputs: nat)

  const NEW_SESSION := Session(None, None, false, None, 0)

  /** `ensure_ready_for_output`. */
  predicate ReadyForOutput(s: Session, model: string) {
    s.contextLoaded && model != "" && (s.modelVersion.Some? ==> model == s.modelVersion.value)
  }

  function Step(s: Session, e: Event): Result<Session, Error> {
    match e
    case AgentContextLoaded(agent, session, model, _, _) =>
      if s.contextLoaded || !InBounds(e) || IsBlank(model) then Err(DomainError)
      else Ok(s.(agentId := Some(agent), sessionId := Some(session), modelVersion := Some(Strip(model)),
                 contextLoaded := true))
    case CreditAnalysisCompleted(_, _, _, model, _, _) =>
      if !InBounds(e) || !ReadyForOutput(s, Strip(model.GetOr(""))) then Err(DomainError)
      else Ok(s.(outputs := s.outputs + 1))
    case FraudScreeningCompleted(_, _, model, _) =>
      if !InBounds(e) || !ReadyForOutput(s, Strip(model)) then Err(DomainError)
      else Ok(s.(outputs := s.outputs + 1))
    case _ => Ok(s)
  }

  function ReplaySession(events: seq<Event>): Result<Session, Error> {
    Replay(Step, NEW_SESSION, events)
  }

  /** A loaded session holds a stripped, non-blank model version. */
  predicate Loaded(s: Session) {
    s.contextLoaded ==>
      s.modelVersion.Some? && s.modelVersion.value != "" && Strip(s.modelVersion.value) == s.modelVersion.value
  }

  lemma StepKeepsLoaded(s: Session, e: Event)
    requires Loaded(s) && Step(s, e).Ok?
    ensures Loaded(Step(s, e).value)
  {
    if e.AgentContextLoaded? { StripMeaning(e.modelVersion); }
  }

  lemma {:induction false} ReplayedIsLoaded(events: seq<Event>)
    requires ReplaySession(events).Ok?
    ensures Loaded(ReplaySession(events).value)
  {
    if events != [] {
      ReplayedIsLoaded(events[..|events| - 1]);
      StepKeepsLoaded(ReplaySession(events[..|events| - 1]).value, events[|events| - 1]);
    }
  }

  predicate IsOutput(e: Event) { e.CreditAnalysisCompleted? || e.FraudScreeningCompleted? }

  function OutputModel(e: Event): string
    requires IsOutput(e)
  {
    if e.CreditAnalysisCompleted? then e.creditModel.GetOr("") else e.fraudModel
  }

  function Outputs(events: seq<Event>): nat {
    if events == [] then 0
    else Outputs(events[..|events| - 1]) + if IsOutput(events[|events| - 1]) then 1 else 0
  }

  /** The model version is locked by the one loaded context: in a replayable session
      every output comes after it and names that model, and all are counted. */
  lemma {:induction false} OutputsUseTheLoadedModel(events: seq<Event>)
    requires ReplaySession(events).Ok?
    ensures ReplaySession(events).value.outputs == Outputs(events)
    ensures var s := ReplaySession(events).value;
            forall i | 0 <= i < |events| && IsOutput(events[i]) ::
              s.contextLoaded && s.modelVersion == Some(Strip(OutputModel(events[i])))
    ensures ReplaySession(events).value.contextLoaded
            <==> exists i :: 0 <= i < |events| && events[i].AgentContextLoaded?
  {
    if events != [] {
      var before, e := events[..|events| - 1], events[|events| - 1];
      OutputsUseTheLoadedModel(before);
      ReplayedIsLoaded(before);
      assert forall i | 0 <= i < |before| :: events[i] == before[i];
      assert events[|before|] == e;
    }
  }

  /** A replayable session has one context, and holds its agent, its session and its stripped
      model version. */
  lemma {:induction false} SessionTellsItsContext(events: seq<Event>, i: nat)
    requires ReplaySession(events).Ok? && i < |events| && events[i].AgentContextLoaded?
    ensures var s, e := ReplaySession(events).value, events[i];
            && s.agentId == Some(e.agentId) && s.sessionId == Some(e.sessionId)
            && s.modelVersion == Some(Strip(e.modelVersion)) && !IsBlank(e.modelVersion)
            && e.replayFrom >= 0 && e.tokenCount > 0
    ensures forall j | 0 <= j < |events| && j != i :: !events[j].AgentContextLoaded?
  {
    var before := events[..|events| - 1];
    OutputsUseTheLoadedModel(before);
    if i < |before| {
      SessionTellsItsContext(before, i);
      assert before[i].AgentContextLoaded?;
    }
    assert forall j | 0 <= j < |before| :: events[j] == before[j];
  }

  class AgentSession {
    var agentId: Option<string>
    var sessionId: Option<string>
    var contextLoaded: bool
    var modelVersion: Option<string>
    var version: nat
    var outputEventCount: nat

    function State(): Session
      reads this
    {
      Session(agentId, sessionId, contextLoaded, modelVersion, outputEventCount)
    }

    constructor ()
      ensures State() == NEW_SESSION && version == 0
    {
      agentId, sessionId, contextLoaded, modelVersion := None, None, false, None;
      version, outputEventCount := 0, 0;
    }

    method Apply(e: Event, position: nat) returns (ok: bool)
      modifies this
      ensures ok <==> Step(old(State()), e).Ok?
      ensures ok ==> State() == Step(old(State()), e).value && version == position
    {
      match e {
        case AgentContextLoaded(agent, session, model, _, _) =>
          if contextLoaded || !InBounds(e) { return false; }
          agentId, sessionId := Some(agent), Some(session);
          var stripped := Strip(model);
          StripMeaning(model);
          if stripped == "" { return false; }
          modelVersion, contextLoaded := Some(stripped), true;
        case CreditAnalysisCompleted(_, _, _, model, _, _) =>
          if !InBounds(e) || !ReadyForOutput(State(), Strip(model.GetOr(""))) { return false; }
          outputEventCount := outputEventCount + 1;
        case FraudScreeningCompleted(_, _, model, _) =>
          if !InBounds(e) || !ReadyForOutput(State(), Strip(model)) { return false; }
          outputEventCount := outputEventCount + 1;
        case _ =>
      }
      version := position;
      ok := true;
    }

    static method Replayed(events: seq<Event>) returns (session: AgentSession, ok: bool)
      ensures fresh(session)
      ensures ok <==> ReplaySession(events).Ok?
      ensures ok ==> session.State() == ReplaySession(events).value && session.version == |events|
    {
      session := new AgentSession();
      ok := true;
      for i := 0 to |events|
        invariant fresh(session)
        invariant ok && Replay(Step, NEW_SESSION, events[..i]) == Ok(session.State()) && session.version == i
      {
        assert events[..i + 1] == events[..i] + [events[i]];
        ReplayMore(Step, NEW_SESSION, events[..i], events[i]);
        ok := session.Apply(events[i], i + 1);
        if !ok {
          assert events == events[..i + 1] + events[i + 1..];
          ReplayConcat(Step, NEW_SESSION, events[..i + 1], events[i + 1..]);
          return;
        }
      }
      assert events[..|events|] == events;
    }
  }
}
