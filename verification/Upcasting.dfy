/** Reading old event versions: the registry of version steps, and the step for
    version one decisions. */
module Upcasting {
  import opened Prelude
  import opened Events
  import opened Replaying
  import opened Handlers
  import LA = LoanAggregate
  import SA = SessionAggregate

  /* ---------- the registry ---------- */

  /** One registered step; `E` is a payload with its metadata. */
  datatype Definition<!E> = Definition(eventType: string, fromVersion: int, toVersion: int, fn: E -> E)

  datatype AppliedStep = AppliedStep(eventType: string, fromVersion: int, toVersion: int)

  datatype UpcastResult<E> = UpcastResult(
    eventType: string, original: int, current: int, event: E, steps: seq<AppliedStep>)

  type Table<!E> = map<(string, int), Definition<E>>

  /** What registration guarantees of every entry: it is filed under its own key and
      leads to a later version. */
  predicate Registered<E>(byKey: Table<E>) {
    forall k | k in byKey ::
      byKey[k].eventType == k.0 && byKey[k].fromVersion == k.1 && 1 <= k.1 < byKey[k].toVersion
  }

  /** The keys of a type that a chain standing at this version can still use. */
  function Ahead<E>(byKey: Table<E>, eventType: string, version: int): set<(string, int)> {
    set k | k in byKey && k.0 == eventType && k.1 >= version
  }

  function Upcast<E>(byKey: Table<E>, eventType: string, version: int, event: E): UpcastResult<E>
    requires Registered(byKey)
    decreases Ahead(byKey, eventType, version)
  {
    if (eventType, version) !in byKey then UpcastResult(eventType, version, version, event, [])
    else
      var d := byKey[(eventType, version)];
      assert (eventType, version) in Ahead(byKey, eventType, version) - Ahead(byKey, eventType, d.toVersion);
      var rest := Upcast(byKey, eventType, d.toVersion, d.fn(event));
      UpcastResult(eventType, version, rest.current, rest.event,
                   [AppliedStep(eventType, version, d.toVersion)] + rest.steps)
  }

  /** Every step is registered, later steps start where earlier ones end, and
      versions grow. */
  predicate IsPath<E>(byKey: Table<E>, eventType: string, version: int, current: int, steps: seq<AppliedStep>) {
    && (forall i | 0 <= i < |steps| ::
          && steps[i].eventType == eventType && steps[i].fromVersion < steps[i].toVersion
          && (eventType, steps[i].fromVersion) in byKey
          && byKey[(eventType, steps[i].fromVersion)].toVersion == steps[i].toVersion)
    && (forall i | 0 < i < |steps| :: steps[i - 1].toVersion == steps[i].fromVersion)
    && (steps == [] ==> current == version)
    && (steps != [] ==> steps[0].fromVersion == version && steps[|steps| - 1].toVersion == current)
  }

  /** An upcast follows one contiguous path to a version that no step leaves, and
      there a second upcast changes nothing. */
  lemma {:induction false} UpcastFollowsThePath<E>(byKey: Table<E>, eventType: string, version: int, event: E)
    requires Registered(byKey)
    ensures var r := Upcast(byKey, eventType, version, event);
            && IsPath(byKey, eventType, version, r.current, r.steps)
            && (eventType, r.current) !in byKey && version <= r.current
            && Upcast(byKey, eventType, r.current, r.event) ==
               UpcastResult(eventType, r.current, r.current, r.event, [])
    decreases Ahead(byKey, eventType, version)
  {
    if (eventType, version) in byKey {
      var d := byKey[(eventType, version)];
      assert (eventType, version) in Ahead(byKey, eventType, version) - Ahead(byKey, eventType, d.toVersion);
      UpcastFollowsThePath(byKey, eventType, d.toVersion, d.fn(event));
    }
  }

  class UpcasterRegistry<!E> {
    var byKey: Table<E>

    predicate Valid()
      reads this
    {
      Registered(byKey)
    }

    constructor ()
      ensures Valid() && byKey == map[]
    {
      byKey := map[];
    }

    /** `register`: refuses steps that do not go forward and a second step from the
        same version. */
    method Register(eventType: string, fromVersion: int, toVersion: int, fn: E -> E) returns (result: Result<(), Error>)
      requires Valid()
      modifies this
      ensures Valid()
      ensures result.Ok? <==> 1 <= fromVersion < toVersion && (eventType, fromVersion) !in old(byKey)
      ensures byKey == if result.Err? then old(byKey)
                       else old(byKey)[(eventType, fromVersion) := Definition(eventType, fromVersion, toVersion, fn)]
    {
      if fromVersion < 1 || toVersion <= fromVersion { return Err(DomainError); }
      var key := (eventType, fromVersion);
      if key in byKey { return Err(DomainError); }
      byKey := byKey[key := Definition(eventType, fromVersion, toVersion, fn)];
      result := Ok(());
    }

    /** `upcast`: terminates on every registry built by registration. */
    method UpcastEvent(eventType: string, version: int, event: E) returns (result: UpcastResult<E>)
      requires Valid()
      ensures result == Upcast(byKey, eventType, version, event)
    {
      var current, now := version, event;
      var steps: seq<AppliedStep> := [];
      while (eventType, current) in byKey
        invariant var rest := Upcast(byKey, eventType, current, now);
                  Upcast(byKey, eventType, version, event) ==
                  UpcastResult(eventType, version, rest.current, rest.event, steps + rest.steps)
        decreases Ahead(byKey, eventType, current)
      {
        var d := byKey[(eventType, current)];
        assert (eventType, current) in Ahead(byKey, eventType, current) - Ahead(byKey, eventType, d.toVersion);
        ghost var rest := Upcast(byKey, eventType, d.toVersion, d.fn(now));
        assert steps + ([AppliedStep(eventType, current, d.toVersion)] + rest.steps) ==
               (steps + [AppliedStep(eventType, current, d.toVersion)]) + rest.steps;
        steps := steps + [AppliedStep(eventType, d.fromVersion, d.toVersion)];
        now := d.fn(now);
        current := d.toVersion;
      }
      assert steps + [] == steps;
      result := UpcastResult(eventType, version, current, now, steps);
    }
  }

  /* ---------- session stream names ---------- */

  function LastDash(s: string): int
    ensures -1 <= LastDash(s) < |s|
  {
    if s == "" then -1 else if s[|s| - 1] == '-' then |s| - 1 else LastDash(s[..|s| - 1])
  }

  /** `_agent_id_from_session_stream`: everything up to the last dash. */
  function AgentOf(stream: string): Option<string> {
    if !("agent-" <= stream) then None
    else
      var remainder := stream[6..];
      var dash := LastDash(remainder);
      if dash <= 0 then None else Some(remainder[..dash])
  }

  lemma {:induction false} LastDashOf(a: string, s: string)
    ensures var at := LastDash(a + "-" + s);
            at >= |a| && (at == |a| <==> '-' !in s)
  {
    var whole := a + "-" + s;
    if s != "" && s[|s| - 1] != '-' {
      assert whole[..|whole| - 1] == a + "-" + s[..|s| - 1];
      LastDashOf(a, s[..|s| - 1]);
      assert s == s[..|s| - 1] + [s[|s| - 1]];
    }
  }

  /** The agent is read back from the name of its session stream exactly when the
      session id has no dash (and the agent has a name); otherwise a piece of the
      session id is taken into the agent's name. */
  lemma AgentIsReadBackIff(agent: string, session: string)
    ensures AgentOf(SessionStream(agent, session)) == Some(agent) <==> agent != "" && '-' !in session
  {
    var stream := SessionStream(agent, session);
    var remainder := agent + "-" + session;
    assert stream == "agent-" + remainder;
    assert "agent-" <= stream && stream[6..] == remainder;
    LastDashOf(agent, session);
    assert remainder[..|agent|] == agent;
  }

  /** In general: an agent is read from a stream's name exactly when that is `agent-`, the
      agent's non-empty name, a dash and a rest without one. */
  lemma AgentIsReadIff(stream: string, agent: string)
    ensures AgentOf(stream) == Some(agent) <==>
            agent != "" && exists rest: string :: '-' !in rest && stream == "agent-" + agent + "-" + rest
  {
    if AgentOf(stream) == Some(agent) {
      var remainder := stream[6..];
      var dash := LastDash(remainder);
      LastDashIsLast(remainder);
      var rest := remainder[dash + 1..];
      assert stream == "agent-" + remainder && remainder == agent + "-" + rest;
      assert '-' !in rest && stream == "agent-" + agent + "-" + rest;
    }
    if agent != "" && exists rest: string :: '-' !in rest && stream == "agent-" + agent + "-" + rest {
      var rest: string :| '-' !in rest && stream == "agent-" + agent + "-" + rest;
      AgentIsReadBackIff(agent, rest);
      assert stream == SessionStream(agent, rest);
    }
  }

  lemma {:induction false} LastDashIsLast(s: string)
    ensures var at := LastDash(s);
            (at >= 0 ==> s[at] == '-') && '-' !in s[at + 1..]
  {
    if s != "" && s[|s| - 1] != '-' {
      LastDashIsLast(s[..|s| - 1]);
      assert s[LastDash(s) + 1..] == s[..|s| - 1][LastDash(s) + 1..] + [s[|s| - 1]];
    }
  }

  /* ---------- version one decisions ---------- */

  datatype Json = Null | Bool(b: bool) | Number(n: real) | Text(s: string) | List(items: seq<Json>)
                | Object(fields: map<string, Json>)

  type Metadata = map<string, Json>

  /** The keys of a decision's payload; the model forbids any other. */
  datatype Field =
    | ApplicationId
    | OrchestratorAgentId
    | RecommendationWord
    | ConfidenceScore
    | ContributingAgentSessions
    | DecisionBasisSummary
    | ModelVersions
    | ComplianceWord
    | AssessedMaxLimitUsd
    | Other(name: string)

  type Payload = map<Field, Json>

  /** `get`: an absent key reads as null. */
  function Get<K>(p: map<K, Json>, key: K): Json { if key in p then p[key] else Null }

  function GetOr(p: Payload, key: Field, default: Json): Json { if key in p then p[key] else default }

  predicate Truthy(j: Json) {
    match j
    case Null => false
    case Bool(b) => b
    case Number(n) => n != 0.0
    case Text(s) => s != ""
    case List(items) => items != []
    case Object(fields) => fields != map[]
  }

  predicate IsName(j: Json) { j.Text? && j.s != "" }

  function ObjectOf(j: Json): map<string, Json> { if j.Object? then j.fields else map[] }

  /** The entries of an existing mapping that name an agent and a version. */
  function Named(existing: Json): map<string, string> {
    var fields := ObjectOf(existing);
    map a | a in fields && a != "" && IsName(fields[a]) :: fields[a].s
  }

  function SessionVersions(metadata: Metadata): Metadata {
    if Get(metadata, "agent_session_model_versions").Object?
    then ObjectOf(Get(metadata, "agent_session_model_versions"))
    else ObjectOf(Get(metadata, "session_model_versions"))
  }

  const LEGACY := "legacy-unknown"

  /** The version a session's agent gets. */
  function VersionFor(metadata: Metadata, stream: string, agent: string): string {
    var bySession := Get(SessionVersions(metadata), stream);
    var candidate := if Truthy(bySession) then bySession
                     else Get(ObjectOf(Get(metadata, "agent_model_versions")), agent);
    if IsName(candidate) then candidate.s else LEGACY
  }

  function AddSession(mv: map<string, string>, metadata: Metadata, stream: Json): map<string, string> {
    if !stream.Text? || AgentOf(stream.s).None? || AgentOf(stream.s).value in mv then mv
    else mv[AgentOf(stream.s).value := VersionFor(metadata, stream.s, AgentOf(stream.s).value)]
  }

  function AddSessions(mv: map<string, string>, metadata: Metadata, streams: seq<Json>): map<string, string> {
    if streams == [] then mv
    else AddSession(AddSessions(mv, metadata, streams[..|streams| - 1]), metadata, streams[|streams| - 1])
  }

  function SessionsIn(p: Payload): seq<Json> {
    var sessions := Get(p, ContributingAgentSessions);
    if sessions.List? then sessions.items else []
  }

  function Reconstructed(p: Payload, metadata: Metadata): map<string, string> {
    AddSessions(Named(Get(p, ModelVersions)), metadata, SessionsIn(p))
  }

  /** The first loop of `_reconstruct_model_versions`. */
  method CopyNamed(existing: Json) returns (modelVersions: map<string, string>)
    ensures modelVersions == Named(existing)
  {
    modelVersions := map[];
    if !existing.Object? { return; }
    var rest := existing.fields.Keys;
    while rest != {}
      invariant rest <= existing.fields.Keys
      invariant modelVersions == map a | a in Named(existing) && a !in rest :: Named(existing)[a]
      decreases rest
    {
      var agent :| agent in rest;
      rest := rest - {agent};
      if agent == "" { continue; }
      var version := existing.fields[agent];
      if version.Text? && version.s != "" { modelVersions := modelVersions[agent := version.s]; }
    }
  }

  /** `_reconstruct_model_versions`. */
  method ReconstructModelVersions(p: Payload, metadata: Metadata) returns (modelVersions: map<string, string>)
    ensures modelVersions == Reconstructed(p, metadata)
  {
    modelVersions := CopyNamed(Get(p, ModelVersions));
    var sessions := SessionsIn(p);
    for i := 0 to |sessions|
      invariant modelVersions == AddSessions(Named(Get(p, ModelVersions)), metadata, sessions[..i])
    {
      assert sessions[..i + 1][..i] == sessions[..i];
      var stream := sessions[i];
      if !stream.Text? { continue; }
      var agent := AgentOf(stream.s);
      if agent.None? || agent.value in modelVersions { continue; }
      modelVersions := modelVersions[agent.value := VersionFor(metadata, stream.s, agent.value)];
    }
    assert sessions[..|sessions|] == sessions;
  }

  /** Whether some session of the list is this agent's. */
  predicate HasSessionOf(streams: seq<Json>, agent: string) {
    exists i | 0 <= i < |streams| :: streams[i].Text? && AgentOf(streams[i].s) == Some(agent)
  }

  /** Adding sessions covers exactly their agents, with a version for each, and
      leaves what was known as it was. */
  lemma {:induction false} AddSessionsCovers(mv: map<string, string>, metadata: Metadata, streams: seq<Json>,
                                             agent: string)
    ensures var after := AddSessions(mv, metadata, streams);
            && (agent in after <==> agent in mv || HasSessionOf(streams, agent))
            && (agent in mv ==> after[agent] == mv[agent])
            && (agent in after && agent !in mv ==> after[agent] != "")
  {
    if streams != [] {
      var before, last := streams[..|streams| - 1], streams[|streams| - 1];
      AddSessionsCovers(mv, metadata, before, agent);
      HasSessionMore(before, last, agent);
      assert streams == before + [last];
    }
  }

  lemma HasSessionMore(before: seq<Json>, last: Json, agent: string)
    ensures HasSessionOf(before + [last], agent) <==>
            HasSessionOf(before, agent) || (last.Text? && AgentOf(last.s) == Some(agent))
  {
    var streams := before + [last];
    assert streams[|before|] == last;
    assert forall i | 0 <= i < |before| :: streams[i] == before[i];
  }

  /** The rebuilt versions name exactly the agents named before and the agents of the
      contributing sessions; no version is empty and named ones are kept. */
  lemma EveryContributorIsCovered(p: Payload, metadata: Metadata, agent: string)
    ensures var mv, named := Reconstructed(p, metadata), Named(Get(p, ModelVersions));
            && (agent in mv <==> agent in named || HasSessionOf(SessionsIn(p), agent))
            && (agent in mv ==> mv[agent] != "")
            && (agent in named ==> mv[agent] == named[agent])
            && var given := Get(p, ModelVersions);
            && (agent in named <==>
                  given.Object? && agent != "" && agent in given.fields && given.fields[agent].Text?
                  && given.fields[agent].s != "")
            && (agent in named ==> Text(mv[agent]) == given.fields[agent])
  {
    AddSessionsCovers(Named(Get(p, ModelVersions)), metadata, SessionsIn(p), agent);
  }

  /** The mapping from session streams to versions: under its own key if that is a mapping. */
  predicate SessionEntry(metadata: Metadata, stream: string, entry: Json) {
    var own, other := Get(metadata, "agent_session_model_versions"), Get(metadata, "session_model_versions");
    entry == if own.Object? then Get(own.fields, stream)
             else if other.Object? then Get(other.fields, stream) else Null
  }

  predicate AgentEntry(metadata: Metadata, agent: string, entry: Json) {
    var versions := Get(metadata, "agent_model_versions");
    entry == if versions.Object? then Get(versions.fields, agent) else Null
  }

  /** The agent of a session is given the version the metadata has for the session, or, when
      that is nothing, the one it has for the agent; what is no text counts as unknown. The
      first session of an agent decides. */
  lemma FirstSessionGivesTheVersion(p: Payload, metadata: Metadata, i: nat, bySession: Json, byAgent: Json)
    requires i < |SessionsIn(p)| && SessionsIn(p)[i].Text? && AgentOf(SessionsIn(p)[i].s).Some?
    requires var agent := AgentOf(SessionsIn(p)[i].s).value;
             && agent !in Named(Get(p, ModelVersions)) && !HasSessionOf(SessionsIn(p)[..i], agent)
             && SessionEntry(metadata, SessionsIn(p)[i].s, bySession) && AgentEntry(metadata, agent, byAgent)
    ensures var agent, mv := AgentOf(SessionsIn(p)[i].s).value, Reconstructed(p, metadata);
            && agent in mv
            && (bySession.Text? && bySession.s != "" ==> mv[agent] == bySession.s)
            && (bySession.Null? || bySession == Text("") ==>
                  mv[agent] == if byAgent.Text? && byAgent.s != "" then byAgent.s else "legacy-unknown")
            && (bySession.Object? && bySession.fields != map[] ==> mv[agent] == "legacy-unknown")
  {
    var sessions, named := SessionsIn(p), Named(Get(p, ModelVersions));
    var agent := AgentOf(sessions[i].s).value;
    AddSessionsCovers(named, metadata, sessions[..i], agent);
    assert sessions[..i + 1][..i] == sessions[..i];
    assert AddSessions(named, metadata, sessions[..i + 1])[agent] == VersionFor(metadata, sessions[i].s, agent);
    AddedStay(named, metadata, sessions, i + 1, agent);
    assert sessions[..|sessions|] == sessions;
  }

  lemma {:induction false} AddedStay(mv: map<string, string>, metadata: Metadata, streams: seq<Json>, n: nat,
                                     agent: string)
    requires n <= |streams| && agent in AddSessions(mv, metadata, streams[..n])
    ensures agent in AddSessions(mv, metadata, streams)
    ensures AddSessions(mv, metadata, streams)[agent] == AddSessions(mv, metadata, streams[..n])[agent]
  {
    if n == |streams| {
      assert streams[..n] == streams;
    } else {
      assert streams[..|streams| - 1][..n] == streams[..n];
      AddedStay(mv, metadata, streams[..|streams| - 1], n, agent);
    }
  }

  function AsTexts(mv: map<string, string>): map<string, Json> { map a | a in mv :: Text(mv[a]) }

  /** `upcast_decision_generated_v1_to_v2`; `show` is the text form of any value. */
  function UpcastDecision(p: Payload, metadata: Metadata, show: Json -> string): Payload {
    var orchestrator := Get(p, OrchestratorAgentId);
    var rebuilt := Reconstructed(p, metadata);
    var inferred := Get(metadata, "orchestrator_model_version");
    var mv := if IsName(orchestrator) && orchestrator.s !in rebuilt
              then rebuilt[orchestrator.s := if Truthy(inferred) then show(inferred) else LEGACY] else rebuilt;
    map[ApplicationId := Get(p, ApplicationId),
        OrchestratorAgentId := orchestrator,
        RecommendationWord := Get(p, RecommendationWord),
        ConfidenceScore := Get(p, ConfidenceScore),
        ContributingAgentSessions := GetOr(p, ContributingAgentSessions, List([])),
        DecisionBasisSummary := GetOr(p, DecisionBasisSummary, Text("LEGACY_EVENT_NO_SUMMARY")),
        ModelVersions := Object(AsTexts(mv)),
        ComplianceWord := Get(p, ComplianceWord),
        AssessedMaxLimitUsd := Get(p, AssessedMaxLimitUsd)]
  }

  /** The upcast decision names the version of every rebuilt agent and of its orchestrator,
      who gets the metadata's if no session did, and has a summary. */
  lemma UpcastNamesTheAgents(p: Payload, metadata: Metadata, show: Json -> string, agent: string)
    ensures var u, rebuilt := UpcastDecision(p, metadata, show), Reconstructed(p, metadata);
            var orchestrates := agent != "" && Get(p, OrchestratorAgentId) == Text(agent);
            var given := Get(metadata, "orchestrator_model_version");
            && Get(u, ModelVersions).Object?
            && var fields := Get(u, ModelVersions).fields;
            && (agent in fields <==> agent in rebuilt || orchestrates)
            && (agent in rebuilt ==> fields[agent] == Text(rebuilt[agent]))
            && (agent !in rebuilt && orchestrates ==>
                  fields[agent] == Text(if Truthy(given) then show(given) else "legacy-unknown"))
            && Get(u, DecisionBasisSummary) ==
               if DecisionBasisSummary in p then p[DecisionBasisSummary] else Text("LEGACY_EVENT_NO_SUMMARY")
  {
  }

  predicate TextOrNull(j: Json) { j.Text? || j.Null? }

  predicate NumberOrNull(j: Json) { j.Number? || j.Null? }

  predicate AllText(items: seq<Json>) { forall i | 0 <= i < |items| :: items[i].Text? }

  function Texts(items: seq<Json>): seq<string>
    requires AllText(items)
  {
    seq(|items|, i requires 0 <= i < |items| => items[i].s)
  }

  /** The words a reader understands, upper-cased first. */
  datatype Vocabulary = Vocabulary(recommendation: string -> Recommendation, status: string -> ComplianceStatus)

  /** The model's checks of the fields the loan looks at, and of the two it ignores. */
  predicate FieldsValid(p: Payload) {
    && Get(p, ApplicationId).Text? && Get(p, RecommendationWord).Text?
    && TextOrNull(Get(p, OrchestratorAgentId)) && TextOrNull(Get(p, DecisionBasisSummary))
    && NumberOrNull(Get(p, ConfidenceScore))
    && (Get(p, ConfidenceScore).Number? ==> 0.0 <= Get(p, ConfidenceScore).n <= 1.0)
    && GetOr(p, ContributingAgentSessions, List([])).List?
    && AllText(GetOr(p, ContributingAgentSessions, List([])).items)
    && TextOrNull(Get(p, ComplianceWord)) && NumberOrNull(Get(p, AssessedMaxLimitUsd))
  }

  /** No field the model forbids, and well-typed model versions if there are any. */
  predicate VersionsValid(p: Payload) {
    && (forall k | k in p :: !k.Other?)
    && (ModelVersions in p ==>
          p[ModelVersions].Object? &&
          forall a | a in p[ModelVersions].fields :: p[ModelVersions].fields[a].Text?)
  }

  /** `DecisionGeneratedPayload.model_validate` and what the loan reads of it. */
  function Decode(v: Vocabulary, p: Payload): Option<Event> {
    if !FieldsValid(p) || !VersionsValid(p) then None
    else
      var confidence, status, assessed :=
        Get(p, ConfidenceScore), Get(p, ComplianceWord), Get(p, AssessedMaxLimitUsd);
      Some(DecisionGenerated(
        Get(p, ApplicationId).s, v.recommendation(Get(p, RecommendationWord).s),
        if confidence.Null? then None else Some(confidence.n),
        Texts(GetOr(p, ContributingAgentSessions, List([])).items),
        if status.Null? then None else Some(v.status(status.s)),
        if assessed.Null? then None else Some(assessed.n)))
  }

  lemma UpcastKeepsSessions(p: Payload, metadata: Metadata, show: Json -> string)
    ensures var u := UpcastDecision(p, metadata, show);
            && GetOr(u, ContributingAgentSessions, List([])) == GetOr(p, ContributingAgentSessions, List([]))
            && (TextOrNull(Get(u, DecisionBasisSummary)) <==> TextOrNull(Get(p, DecisionBasisSummary)))
  {
  }

  lemma UpcastKeepsFields(p: Payload, metadata: Metadata, show: Json -> string)
    ensures var u := UpcastDecision(p, metadata, show);
            && Get(u, ApplicationId) == Get(p, ApplicationId)
            && Get(u, OrchestratorAgentId) == Get(p, OrchestratorAgentId)
            && Get(u, RecommendationWord) == Get(p, RecommendationWord)
            && Get(u, ConfidenceScore) == Get(p, ConfidenceScore)
            && Get(u, ComplianceWord) == Get(p, ComplianceWord)
            && Get(u, AssessedMaxLimitUsd) == Get(p, AssessedMaxLimitUsd)
  {
  }

  lemma UpcastVersionsAreValid(p: Payload, metadata: Metadata, show: Json -> string)
    ensures VersionsValid(UpcastDecision(p, metadata, show))
  {
  }

  lemma UpcastReadsTheSame(p: Payload, metadata: Metadata, show: Json -> string)
    ensures FieldsValid(UpcastDecision(p, metadata, show)) <==> FieldsValid(p)
  {
    UpcastKeepsFields(p, metadata, show);
    UpcastKeepsSessions(p, metadata, show);
  }

  /** A version one decision that the model accepts means the same after upcasting.
      Reading changes exactly for decisions that only fail on a forbidden field or on
      malformed model versions: upcasting makes those readable. */
  lemma UpcastKeepsTheDecisionIff(v: Vocabulary, p: Payload, metadata: Metadata, show: Json -> string)
    ensures Decode(v, UpcastDecision(p, metadata, show)) == Decode(v, p) <==> VersionsValid(p) || !FieldsValid(p)
  {
    UpcastKeepsFields(p, metadata, show);
    UpcastKeepsSessions(p, metadata, show);
    UpcastVersionsAreValid(p, metadata, show);
    UpcastReadsTheSame(p, metadata, show);
  }

  /* ---------- the replayed loan ---------- */

  /** What a loan stream stores: a version one decision, or any other event. */
  datatype Raw = Legacy(payload: Payload, metadata: Metadata) | Current(event: Event)

  /** Applying a stored row as it is. */
  function StepAsStored(v: Vocabulary): (LA.Loan, Raw) -> Result<LA.Loan, Error> {
    (l: LA.Loan, r: Raw) => Applied(l, if r.Current? then Some(r.event) else Decode(v, r.payload))
  }

  /** Applying it as the store returns it, upcast. */
  function StepUpcast(v: Vocabulary, show: Json -> string): (LA.Loan, Raw) -> Result<LA.Loan, Error> {
    (l: LA.Loan, r: Raw) =>
      Applied(l, if r.Current? then Some(r.event) else Decode(v, UpcastDecision(r.payload, r.metadata, show)))
  }

  function Applied(l: LA.Loan, e: Option<Event>): Result<LA.Loan, Error> {
    match e
    case None => Err(DomainError)
    case Some(event) => LA.Step(l, event)
  }

  /** A loan rebuilt from upcast rows is the loan rebuilt from the rows as stored. */
  lemma {:induction false} UpcastingKeepsTheLoan(v: Vocabulary, rows: seq<Raw>, show: Json -> string)
    requires forall i | 0 <= i < |rows| && rows[i].Legacy? :: VersionsValid(rows[i].payload)
    ensures Replay(StepUpcast(v, show), LA.NEW_LOAN, rows) == Replay(StepAsStored(v), LA.NEW_LOAN, rows)
  {
    if rows != [] {
      var last := rows[|rows| - 1];
      UpcastingKeepsTheLoan(v, rows[..|rows| - 1], show);
      if last.Legacy? { UpcastKeepsTheDecisionIff(v, last.payload, last.metadata, show); }
    }
  }

  /* ---------- credit analyses ---------- */

  /** The keys of a credit analysis; the model forbids any other. */
  datatype CreditField =
    | Application
    | Agent
    | SessionId
    | ModelVersion
    | Confidence
    | RiskTier
    | RecommendedLimit
    | AnalysisDuration
    | InputHash
    | RegulatoryBasis
    | Unknown(name: string)

  type CreditPayload = map<CreditField, Json>

  const JANUARY_2025 := 1735689600
  const JULY_2025 := 1751328000
  const SEPTEMBER_2025 := 1756684800
  const JANUARY_2026 := 1767225600

  /** The model version a stored analysis is read with; `recordedAt` is in seconds
      since 1970, absent if it does not parse. */
  function InferredModel(p: CreditPayload, metadata: Metadata, recordedAt: Option<int>): string {
    if IsName(Get(p, ModelVersion)) then Get(p, ModelVersion).s
    else if IsName(Get(metadata, "model_version")) then Get(metadata, "model_version").s
    else if recordedAt.None? then LEGACY
    else if recordedAt.value < JANUARY_2025 then "credit-v1"
    else if recordedAt.value < SEPTEMBER_2025 then "credit-v1.5"
    else "credit-v2"
  }

  function InferredBasis(p: CreditPayload, metadata: Metadata, recordedAt: Option<int>): Json {
    if IsName(Get(p, RegulatoryBasis)) then Get(p, RegulatoryBasis)
    else if IsName(Get(metadata, "regulation_set_version")) then Get(metadata, "regulation_set_version")
    else if recordedAt.None? then Null
    else if recordedAt.value < JULY_2025 then Text("regset-2025.1")
    else if recordedAt.value < JANUARY_2026 then Text("regset-2025.2")
    else Text("regset-2026.1")
  }

  const DAYS_BEFORE := [0, 31, 59, 90, 120, 151, 181, 212, 243, 273, 304, 334]

  /** Seconds from 1970 to the first of a month, UTC, by the Gregorian calendar. */
  function FirstOfMonth(year: int, month: int): int
    requires year >= 1970 && 1 <= month <= 12
  {
    var leapDays := (year - 1969) / 4 - (year - 1901) / 100 + (year - 1601) / 400;
    var isLeap := year % 4 == 0 && (year % 100 != 0 || year % 400 == 0);
    86400 * (365 * (year - 1970) + leapDays + DAYS_BEFORE[month - 1] + if isLeap && month > 2 then 1 else 0)
  }

  /** An analysis without a model version takes the metadata's, and without that the one
      released when it was recorded: the first before 2025, the second until September
      2025, the third from then on. */
  lemma ModelIsInferredByRelease(p: CreditPayload, metadata: Metadata, recordedAt: Option<int>)
    ensures var model := InferredModel(p, metadata, recordedAt);
            && model != ""
            && (IsName(Get(p, ModelVersion)) ==> Text(model) == Get(p, ModelVersion))
            && (!IsName(Get(p, ModelVersion)) && IsName(Get(metadata, "model_version")) ==>
                  Text(model) == Get(metadata, "model_version"))
            && (!IsName(Get(p, ModelVersion)) && !IsName(Get(metadata, "model_version")) ==>
                  && (recordedAt.None? ==> model == "legacy-unknown")
                  && (recordedAt.Some? ==>
                        var t := recordedAt.value;
                        && (model == "credit-v1" <==> t < FirstOfMonth(2025, 1))
                        && (model == "credit-v1.5" <==> FirstOfMonth(2025, 1) <= t < FirstOfMonth(2025, 9))
                        && (model == "credit-v2" <==> FirstOfMonth(2025, 9) <= t)))
  {
    Calendar();
  }

  /** The regulatory basis likewise, by the rule set in force; it stays unknown without a time. */
  lemma BasisIsInferredByDate(p: CreditPayload, metadata: Metadata, recordedAt: Option<int>)
    ensures var basis := Get(UpcastCredit(p, metadata, recordedAt), RegulatoryBasis);
            && (IsName(Get(p, RegulatoryBasis)) ==> basis == Get(p, RegulatoryBasis))
            && (!IsName(Get(p, RegulatoryBasis)) && IsName(Get(metadata, "regulation_set_version")) ==>
                  basis == Get(metadata, "regulation_set_version"))
            && (!IsName(Get(p, RegulatoryBasis)) && !IsName(Get(metadata, "regulation_set_version")) ==>
                  && (basis.Null? <==> recordedAt.None?)
                  && (recordedAt.Some? ==>
                        var t := recordedAt.value;
                        && (basis == Text("regset-2025.1") <==> t < FirstOfMonth(2025, 7))
                        && (basis == Text("regset-2025.2") <==> FirstOfMonth(2025, 7) <= t < FirstOfMonth(2026, 1))
                        && (basis == Text("regset-2026.1") <==> FirstOfMonth(2026, 1) <= t)))
  {
    Calendar();
  }

  lemma Calendar()
    ensures FirstOfMonth(2025, 1) == JANUARY_2025 && FirstOfMonth(2025, 7) == JULY_2025
    ensures FirstOfMonth(2025, 9) == SEPTEMBER_2025 && FirstOfMonth(2026, 1) == JANUARY_2026
  {
  }

  predicate IsScore(j: Json) { j.Number? && 0.0 <= j.n <= 1.0 }

  /** `upcast_credit_analysis_completed_v1_to_v2`. */
  function UpcastCredit(p: CreditPayload, metadata: Metadata, recordedAt: Option<int>): CreditPayload {
    map[Application := Get(p, Application),
        Agent := Get(p, Agent),
        SessionId := Get(p, SessionId),
        ModelVersion := Text(InferredModel(p, metadata, recordedAt)),
        Confidence := if IsScore(Get(p, Confidence)) then Get(p, Confidence) else Null,
        RiskTier := Get(p, RiskTier),
        RecommendedLimit := Get(p, RecommendedLimit),
        AnalysisDuration := Get(p, AnalysisDuration),
        InputHash := Get(p, InputHash),
        RegulatoryBasis := InferredBasis(p, metadata, recordedAt)]
  }

  /** `CreditAnalysisCompletedPayload.model_validate` on the fields that upcasting keeps. */
  predicate KeptFieldsValid(p: CreditPayload) {
    && Get(p, Application).Text? && Get(p, Agent).Text? && Get(p, SessionId).Text?
    && TextOrNull(Get(p, RiskTier)) && TextOrNull(Get(p, InputHash))
    && NumberOrNull(Get(p, RecommendedLimit)) && NumberOrNull(Get(p, AnalysisDuration))
    && (Get(p, RecommendedLimit).Number? ==> Get(p, RecommendedLimit).n > 0.0)
    && (Get(p, AnalysisDuration).Number? ==> Get(p, AnalysisDuration).n >= 0.0)
  }

  /** The same on the fields that it rewrites or drops. */
  predicate RewrittenFieldsValid(p: CreditPayload) {
    && TextOrNull(Get(p, ModelVersion)) && TextOrNull(Get(p, RegulatoryBasis))
    && (Get(p, Confidence).Null? || IsScore(Get(p, Confidence)))
    && forall k | k in p :: !k.Unknown?
  }

  function DecodeCredit(p: CreditPayload): Option<Event> {
    if !KeptFieldsValid(p) || !RewrittenFieldsValid(p) then None
    else
      var model, limit, score := Get(p, ModelVersion), Get(p, RecommendedLimit), Get(p, Confidence);
      Some(CreditAnalysisCompleted(
        Get(p, Application).s, Get(p, Agent).s, Get(p, SessionId).s,
        if model.Null? then None else Some(model.s),
        if limit.Null? then None else Some(limit.n),
        if score.Null? then None else Some(score.n)))
  }

  lemma CreditKeepsNames(p: CreditPayload, metadata: Metadata, recordedAt: Option<int>)
    ensures var u := UpcastCredit(p, metadata, recordedAt);
            && Get(u, Application) == Get(p, Application) && Get(u, Agent) == Get(p, Agent)
            && Get(u, SessionId) == Get(p, SessionId) && Get(u, RiskTier) == Get(p, RiskTier)
  {
  }

  lemma CreditKeepsFields(p: CreditPayload, metadata: Metadata, recordedAt: Option<int>)
    ensures var u := UpcastCredit(p, metadata, recordedAt);
            && Get(u, RecommendedLimit) == Get(p, RecommendedLimit)
            && Get(u, AnalysisDuration) == Get(p, AnalysisDuration) && Get(u, InputHash) == Get(p, InputHash)
            && Get(u, ModelVersion) == Text(InferredModel(p, metadata, recordedAt))
            && Get(u, Confidence) == if IsScore(Get(p, Confidence)) then Get(p, Confidence) else Null
  {
  }

  lemma CreditStaysReadable(p: CreditPayload, metadata: Metadata, recordedAt: Option<int>)
    ensures RewrittenFieldsValid(UpcastCredit(p, metadata, recordedAt))
  {
  }

  /** A readable analysis stays readable and only its model version may change. */
  lemma UpcastNamesTheModel(p: CreditPayload, metadata: Metadata, recordedAt: Option<int>)
    requires DecodeCredit(p).Some?
    ensures DecodeCredit(UpcastCredit(p, metadata, recordedAt)) ==
            Some(DecodeCredit(p).value.(creditModel := Some(InferredModel(p, metadata, recordedAt))))
  {
    CreditKeepsNames(p, metadata, recordedAt);
    CreditKeepsFields(p, metadata, recordedAt);
    CreditStaysReadable(p, metadata, recordedAt);
  }

  /** It means the same after upcasting exactly when it names its model; otherwise a
      model is made up for it. */
  lemma UpcastKeepsTheAnalysisIff(p: CreditPayload, metadata: Metadata, recordedAt: Option<int>)
    requires DecodeCredit(p).Some?
    ensures DecodeCredit(UpcastCredit(p, metadata, recordedAt)) == DecodeCredit(p) <==> IsName(Get(p, ModelVersion))
  {
    UpcastNamesTheModel(p, metadata, recordedAt);
    assert InferredModel(p, metadata, recordedAt) != "";
  }

  /** The payload the credit analysis handler writes, as version one. */
  function WrittenCredit(cmd: Command, riskTier: Json): CreditPayload
    requires cmd.CompleteCredit?
  {
    map[Application := Text(cmd.app), Agent := Text(cmd.agent), SessionId := Text(cmd.session),
        ModelVersion := Text(cmd.model), Confidence := Number(cmd.confidence), RiskTier := riskTier,
        RecommendedLimit := Number(cmd.limit), AnalysisDuration := Number(cmd.durationMs as real),
        InputHash := Text(cmd.inputHash)]
  }

  /** What the credit analysis handler writes is read back, upcast, as the event it decided. */
  lemma WrittenAnalysesReadBack(s: SA.Session, l: LA.Loan, cmd: Command, riskTier: Json, metadata: Metadata,
                                recordedAt: Option<int>)
    requires cmd.CompleteCredit? && DecideCredit(s, l, cmd).Ok? && TextOrNull(riskTier)
    ensures DecodeCredit(UpcastCredit(WrittenCredit(cmd, riskTier), metadata, recordedAt)) ==
            Some(DecideCredit(s, l, cmd).value[0])
  {
    var p := WrittenCredit(cmd, riskTier);
    assert DecodeCredit(p) == Some(DecideCredit(s, l, cmd).value[0]);
    UpcastKeepsTheAnalysisIff(p, metadata, recordedAt);
  }
}
