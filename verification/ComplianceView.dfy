/** The compliance audit projection, the batch recomputation that the regulatory
    package and the what-if projector share, and their agreement with the
    aggregate on every handler-built log. */
module ComplianceView {
  import opened Prelude
  import opened Events
  import opened Replaying
  import opened EventStore
  import opened Handlers
  import opened Verdicts
  import opened Placement
  import opened Interleaving
  import CA = ComplianceAggregate

  datatype ViewState = ViewState(
    regulationSet: Option<string>, mandatory: set<string>, passed: set<string>,
    failed: map<string, string>, status: ComplianceStatus)

  const FRESH := ViewState(None, {}, {}, map[], NotStarted)

  /** `_compute_compliance_status`: the aggregate's, but NOT_STARTED without any rule. */
  function StatusFor(mandatory: set<string>, passed: set<string>, failed: map<string, string>): ComplianceStatus {
    if failed == map[] && mandatory == {} then NotStarted else CA.StatusOf(mandatory, passed, failed)
  }

  /** How one event moves the collections; a later pass takes a rule's failure away. */
  function Collected(s: ViewState, e: Event): ViewState {
    match e
    case ComplianceCheckRequested(_, regulationSet, checks) =>
      s.(regulationSet := Some(regulationSet), mandatory := CA.ToSet(checks), passed := {}, failed := map[])
    case ComplianceRulePassed(_, rule, _) =>
      if rule == "" then s else s.(passed := s.passed + {rule}, failed := s.failed - {rule})
    case ComplianceRuleFailed(_, rule, _, reason) =>
      if rule == "" then s else s.(failed := s.failed[rule := reason], passed := s.passed - {rule})
    case _ => s
  }

  /** `_next_state`: the verdict of a completion event is taken on trust. */
  function NextState(s: ViewState, e: Event): ViewState {
    if e.ComplianceCheckCompleted? then s.(status := e.verdict)
    else
      var t := Collected(s, e);
      t.(status := StatusFor(t.mandatory, t.passed, t.failed))
  }

  /** The events the projection keeps for an application; it skips an empty id. */
  predicate Concerns(e: Event, app: string) {
    app != "" && IsCompliance(e) && e.appId == app
  }

  /** The live fold for one application over the whole log. */
  function ViewOf(log: seq<StoredEvent>, app: string): ViewState {
    if log == [] then FRESH
    else
      var before, e := ViewOf(log[..|log| - 1], app), log[|log| - 1].event;
      if Concerns(e, app) then NextState(before, e) else before
  }

  /** The batch recomputation collects the same way and judges only at the end. */
  function BatchOf(log: seq<StoredEvent>, app: string): ViewState {
    if log == [] then FRESH
    else
      var before, e := BatchOf(log[..|log| - 1], app), log[|log| - 1].event;
      if AppOf(e) == Some(app) then Collected(before, e) else before
  }

  function BatchStatus(log: seq<StoredEvent>, app: string): ComplianceStatus {
    var b := BatchOf(log, app);
    StatusFor(b.mandatory, b.passed, b.failed)
  }

  /** `_compute_compliance_state`, as a loop over the events. */
  method ComputeComplianceState(events: seq<StoredEvent>, app: string) returns (state: ViewState)
    ensures state == BatchOf(events, app).(status := BatchStatus(events, app))
  {
    var mandatory: set<string>, passed: set<string>, failed: map<string, string> := {}, {}, map[];
    var regulationSet: Option<string> := None;
    for i := 0 to |events|
      invariant ViewState(regulationSet, mandatory, passed, failed, NotStarted) == BatchOf(events[..i], app)
    {
      assert events[..i + 1][..i] == events[..i];
      var e := events[i].event;
      if AppOf(e) != Some(app) { continue; }
      match e {
        case ComplianceCheckRequested(_, regulations, checks) =>
          mandatory, passed, failed, regulationSet := CA.ToSet(checks), {}, map[], Some(regulations);
        case ComplianceRulePassed(_, rule, _) =>
          if rule != "" { passed, failed := passed + {rule}, failed - {rule}; }
        case ComplianceRuleFailed(_, rule, _, reason) =>
          if rule != "" { failed, passed := failed[rule := reason], passed - {rule}; }
        case _ =>
      }
    }
    assert events[..|events|] == events;
    var status := NotStarted;
    if failed != map[] { status := Failed; }
    else if mandatory != {} && mandatory <= passed { status := Cleared; }
    else if mandatory != {} { status := Pending; }
    state := ViewState(regulationSet, mandatory, passed, failed, status);
  }

  /* ---------- what the collections and the status say of the events ---------- */

  /** The checks an application's last request asks for. */
  function LastChecks(log: seq<StoredEvent>, app: string): seq<string> {
    if log == [] then []
    else
      var e := log[|log| - 1].event;
      if e.ComplianceCheckRequested? && e.appId == app then e.checks else LastChecks(log[..|log| - 1], app)
  }

  /** Whether the last event on a rule since the last request passes it; a rule without
      a name is not heard of. */
  function LastWord(log: seq<StoredEvent>, app: string, rule: string): Option<bool> {
    if log == [] || rule == "" then None
    else
      var before, e := log[..|log| - 1], log[|log| - 1].event;
      if AppOf(e) != Some(app) then LastWord(before, app, rule)
      else if e.ComplianceCheckRequested? then None
      else if e.ComplianceRulePassed? && e.ruleId == rule then Some(true)
      else if e.ComplianceRuleFailed? && e.ruleId == rule then Some(false)
      else LastWord(before, app, rule)
  }

  lemma {:induction false} CollectionsTellTheLog(log: seq<StoredEvent>, app: string, rule: string)
    ensures var b := BatchOf(log, app);
            && (rule in b.mandatory <==> rule in LastChecks(log, app))
            && (rule in b.passed <==> LastWord(log, app, rule) == Some(true))
            && (rule in b.failed <==> LastWord(log, app, rule) == Some(false))
  {
    if log != [] { CollectionsTellTheLog(log[..|log| - 1], app, rule); }
  }

  /** The recomputed status, from the log alone: FAILED iff the last word on some rule is a
      failure; otherwise NOT_STARTED without a required rule, CLEARED iff the last word on
      every required rule is a pass, and PENDING in between. */
  lemma BatchStatusTellsTheLog(log: seq<StoredEvent>, app: string)
    ensures var status, checks := BatchStatus(log, app), LastChecks(log, app);
            var failing := exists rule :: LastWord(log, app, rule) == Some(false);
            var passing := forall rule | rule in checks :: LastWord(log, app, rule) == Some(true);
            && (status.Failed? <==> failing)
            && (status.NotStarted? <==> !failing && checks == [])
            && (status.Cleared? <==> !failing && checks != [] && passing)
            && (status.Pending? <==> !failing && checks != [] && !passing)
  {
    FailuresTellTheLog(log, app);
    ChecksTellTheLog(log, app);
  }

  lemma FailuresTellTheLog(log: seq<StoredEvent>, app: string)
    ensures BatchOf(log, app).failed != map[] <==> exists rule :: LastWord(log, app, rule) == Some(false)
  {
    var b := BatchOf(log, app);
    if rule :| rule in b.failed {
      CollectionsTellTheLog(log, app, rule);
      assert LastWord(log, app, rule) == Some(false);
    } else {
      forall rule ensures LastWord(log, app, rule) != Some(false) { CollectionsTellTheLog(log, app, rule); }
    }
  }

  lemma ChecksTellTheLog(log: seq<StoredEvent>, app: string)
    ensures var b, checks := BatchOf(log, app), LastChecks(log, app);
            && (b.mandatory == {} <==> checks == [])
            && (b.mandatory <= b.passed <==> forall rule | rule in checks :: LastWord(log, app, rule) == Some(true))
  {
    var b, checks := BatchOf(log, app), LastChecks(log, app);
    if checks != [] { CollectionsTellTheLog(log, app, checks[0]); }
    if b.mandatory != {} {
      var rule :| rule in b.mandatory;
      CollectionsTellTheLog(log, app, rule);
    }
    if b.mandatory <= b.passed {
      forall rule | rule in checks ensures LastWord(log, app, rule) == Some(true) {
        CollectionsTellTheLog(log, app, rule);
      }
    }
    if forall rule | rule in checks :: LastWord(log, app, rule) == Some(true) {
      forall rule | rule in b.mandatory ensures rule in b.passed { CollectionsTellTheLog(log, app, rule); }
    }
  }

  /** The live fold collects what the recomputation collects; after a verdict it holds the
      verdict, after any other event of the application the recomputed status. */
  lemma {:induction false} ViewTellsTheLog(log: seq<StoredEvent>, app: string)
    requires app != ""
    ensures var v, b := ViewOf(log, app), BatchOf(log, app);
            v.mandatory == b.mandatory && v.passed == b.passed && v.failed == b.failed
    ensures log != [] && Concerns(log[|log| - 1].event, app) ==>
              ViewOf(log, app).status == var e := log[|log| - 1].event;
                if e.ComplianceCheckCompleted? then e.verdict else BatchStatus(log, app)
  {
    if log != [] { ViewTellsTheLog(log[..|log| - 1], app); }
  }

  /* ---------- the folds over one compliance stream ---------- */

  function ViewFold(events: seq<Event>): ViewState {
    if events == [] then FRESH else NextState(ViewFold(events[..|events| - 1]), events[|events| - 1])
  }

  function BatchFold(events: seq<Event>): ViewState {
    if events == [] then FRESH else Collected(BatchFold(events[..|events| - 1]), events[|events| - 1])
  }

  lemma FoldsMore(events: seq<Event>, e: Event)
    ensures ViewFold(events + [e]) == NextState(ViewFold(events), e)
    ensures BatchFold(events + [e]) == Collected(BatchFold(events), e)
  {
    assert (events + [e])[..|events|] == events;
  }

  /** The recomputation collects what the live fold collects. */
  lemma {:induction false} FoldsCollectAlike(events: seq<Event>)
    ensures BatchFold(events) == ViewFold(events).(status := NotStarted)
  {
    if events != [] { FoldsCollectAlike(events[..|events| - 1]); }
  }

  /** On a placed log both folds of an application read exactly its compliance stream,
      except that the live one keeps nothing for an empty application id. */
  lemma {:induction false} FoldsReadTheStream(log: seq<StoredEvent>, app: string)
    requires Placed(log)
    ensures BatchOf(log, app) == BatchFold(StreamOf(log, ComplianceStream(app)))
    ensures ViewOf(log, app) == if app == "" then FRESH else ViewFold(StreamOf(log, ComplianceStream(app)))
  {
    if log != [] {
      var before, e := log[..|log| - 1], log[|log| - 1];
      FoldsReadTheStream(before, app);
      PlacementReadsBothWays(e.stream, e.event, app);
      assert log == before + [e];
      OneMoreRow(before, e, ComplianceStream(app));
      FoldsMore(StreamOf(before, ComplianceStream(app)), e.event);
    }
  }

  /* ---------- agreement with the aggregate ---------- */

  predicate SameCollections(c: CA.Compliance, v: ViewState) {
    && c.regulationSet == v.regulationSet && c.mandatory == v.mandatory
    && c.passed == v.passed && c.failed.Keys == v.failed.Keys
  }

  predicate IsRule(e: Event) { e.ComplianceRulePassed? || e.ComplianceRuleFailed? }

  /** No rule event of the stream has an empty rule id. */
  predicate NamesItsRules(events: seq<Event>) {
    forall i | 0 <= i < |events| :: IsRule(events[i]) ==> events[i].ruleId != ""
  }

  lemma NamesMore(events: seq<Event>)
    requires events != []
    ensures var before, e := events[..|events| - 1], events[|events| - 1];
            NamesItsRules(events) <==> NamesItsRules(before) && (IsRule(e) ==> e.ruleId != "")
  {
    var before := events[..|events| - 1];
    assert forall i | 0 <= i < |before| :: events[i] == before[i];
  }

  lemma CollectedAgrees(c: CA.Compliance, v: ViewState, e: Event)
    requires CA.Consistent(c) && SameCollections(c, v) && CA.Step(c, e).Ok?
    requires IsRule(e) ==> e.ruleId != ""
    ensures SameCollections(CA.Step(c, e).value, Collected(v, e))
  {
  }

  lemma StatusAgrees(c: CA.Compliance, v: ViewState)
    requires CA.Consistent(c) && SameCollections(c, v)
    ensures c.status == StatusFor(v.mandatory, v.passed, v.failed)
  {
    assert c.failed == map[] <==> c.failed.Keys == {};
    assert v.failed == map[] <==> v.failed.Keys == {};
  }

  /** With named rules the live fold agrees with the aggregate, although it un-fails
      passed rules and trusts verdicts. */
  lemma {:induction false} NamedFoldAgrees(events: seq<Event>)
    requires CA.ReplayRecord(events).Ok? && Truthful(events) && NamesItsRules(events)
    ensures SameCollections(CA.ReplayRecord(events).value, ViewFold(events))
    ensures CA.ReplayRecord(events).value.status == ViewFold(events).status
  {
    if events != [] {
      var before, e := events[..|events| - 1], events[|events| - 1];
      assert events == before + [e];
      OneMore(before, e);
      ReplayMore(CA.Step, CA.NEW_RECORD, before, e);
      NamesMore(events);
      NamedFoldAgrees(before);
      CA.ReplayedIsConsistent(before);
      CA.ReplayedIsConsistent(events);
      CollectedAgrees(CA.ReplayRecord(before).value, ViewFold(before), e);
      StatusAgrees(CA.ReplayRecord(events).value, Collected(ViewFold(before), e));
    }
  }

  /** The projection never counts a rule without a name. */
  lemma {:induction false} ViewHasNoUnnamedRule(events: seq<Event>)
    ensures "" !in ViewFold(events).passed && "" !in ViewFold(events).failed
  {
    if events != [] { ViewHasNoUnnamedRule(events[..|events| - 1]); }
  }

  /** The aggregate judged a rule without a name exactly when an event names none. */
  lemma {:induction false} UnnamedRuleIsJudged(events: seq<Event>)
    requires CA.ReplayRecord(events).Ok?
    ensures var c := CA.ReplayRecord(events).value;
            ("" in c.passed || "" in c.failed) <==> !NamesItsRules(events)
  {
    if events != [] {
      var before := events[..|events| - 1];
      UnnamedRuleIsJudged(before);
      CA.ReplayedIsConsistent(before);
      NamesMore(events);
    }
  }

  /** Exactly when the live fold agrees with the aggregate on the rules and the status:
      when every rule event names its rule. */
  lemma ViewAgreesIff(events: seq<Event>)
    requires CA.ReplayRecord(events).Ok? && Truthful(events)
    ensures var c, v := CA.ReplayRecord(events).value, ViewFold(events);
            && (SameCollections(c, v) <==> NamesItsRules(events))
            && (NamesItsRules(events) ==> c.status == v.status)
  {
    ViewHasNoUnnamedRule(events);
    UnnamedRuleIsJudged(events);
    if NamesItsRules(events) { NamedFoldAgrees(events); }
  }

  /** The same for the batch recomputation, which does not look at verdicts. */
  lemma BatchAgreesIff(events: seq<Event>)
    requires CA.ReplayRecord(events).Ok? && Truthful(events)
    ensures var c, b := CA.ReplayRecord(events).value, BatchFold(events);
            && (SameCollections(c, b) <==> NamesItsRules(events))
            && (NamesItsRules(events) ==> c.status == StatusFor(b.mandatory, b.passed, b.failed))
  {
    ViewAgreesIff(events);
    FoldsCollectAlike(events);
    if NamesItsRules(events) {
      CA.ReplayedIsConsistent(events);
      StatusAgrees(CA.ReplayRecord(events).value, BatchFold(events));
    }
  }

  /** On every guarded handler run, for every application: the replayed record, the
      live projection and the batch recomputation agree on mandatory, passed and failed
      rules exactly when the rules of its stream have names, and then on the status.
      For an empty application id the projection keeps nothing. */
  lemma AllThreeAgreeIff(acts: seq<Action>, app: string)
    requires Obeys(START, acts)
    ensures var s := Exec(START, acts).store;
            var events := Load(s, ComplianceStream(app));
            var v, b := ViewOf(s.log, app), BatchOf(s.log, app);
            && CA.ReplayRecord(events).Ok?
            && var c := CA.ReplayRecord(events).value;
            && (app != "" ==> (SameCollections(c, v) <==> NamesItsRules(events)))
            && (app != "" && NamesItsRules(events) ==> c.status == v.status)
            && (SameCollections(c, b) <==> NamesItsRules(events))
            && (NamesItsRules(events) ==> c.status == BatchStatus(s.log, app))
            && (app == "" ==> v == FRESH)
  {
    var s := Exec(START, acts).store;
    EveryRunStaysHealthy(acts);
    EveryLogIsPlaced(acts);
    assert HealthyApp(s, app);
    assert StreamOf(s.log, ComplianceStream(app)) == Load(s, ComplianceStream(app));
    FoldsReadTheStream(s.log, app);
    ViewAgreesIff(Load(s, ComplianceStream(app)));
    BatchAgreesIff(Load(s, ComplianceStream(app)));
  }

  /* ---------- a guarded run on which they differ ---------- */

  /** One check handled from start to end without interference. */
  function CheckActs(cmd: Command): seq<Action> { [Begin(0, cmd), LoadNext(0), Commit(0, 0, None, None)] }

  predicate Open(s: Store, name: string) {
    name in s.streams ==> s.streams[name].aggregateType == "ComplianceRecord" && !s.streams[name].archived
  }

  lemma ExecMore(acts: seq<Action>, a: Action)
    ensures Exec(START, acts + [a]) == Next(Exec(START, acts), a)
    ensures Obeys(START, acts + [a]) <==> Obeys(START, acts) && Allowed(Exec(START, acts), a)
  {
    assert (acts + [a])[..|acts|] == acts;
  }

  lemma CheckCommits(s: Store, cmd: Command, content: seq<Event>)
    requires ValidStore(s) && cmd.CheckCompliance? && content == Load(s, ComplianceStream(cmd.app))
    requires Open(s, ComplianceStream(cmd.app)) && Decide(cmd, [content]).Ok? && Decide(cmd, [content]).value != []
    ensures var r := CommitOf(s, Op(cmd, [content]), 0, None, None);
            && r.Ok? && Open(r.value, ComplianceStream(cmd.app)) && ValidStore(r.value)
            && Load(r.value, ComplianceStream(cmd.app)) == content + Decide(cmd, [content]).value
  {
    var op := Op(cmd, [content]);
    VersionIsLength(s, ComplianceStream(cmd.app));
    var r := RequestFor(op, Decide(cmd, [content]).value, None, None);
    ConcurrencyRefusal(s, r, 0);
    CommitExtends(s, op, 0, None, None);
  }

  lemma CheckLoads(w: World, cmd: Command)
    requires w.ops == map[] && cmd.CheckCompliance?
    ensures Allowed(w, Begin(0, cmd)) && Allowed(Next(w, Begin(0, cmd)), LoadNext(0))
    ensures Next(Next(w, Begin(0, cmd)), LoadNext(0)) ==
            World(w.store, map[0 := Op(cmd, [Load(w.store, ComplianceStream(cmd.app))])])
  {
    var content := Load(w.store, ComplianceStream(cmd.app));
    assert Next(w, Begin(0, cmd)) == World(w.store, map[0 := Op(cmd, [])]);
    assert [] + [content] == [content];
    assert map[0 := Op(cmd, [])][0 := Op(cmd, [content])] == map[0 := Op(cmd, [content])];
  }

  lemma CheckEnds(s: Store, cmd: Command, content: seq<Event>)
    requires ValidStore(s) && cmd.CheckCompliance? && content == Load(s, ComplianceStream(cmd.app))
    requires Open(s, ComplianceStream(cmd.app)) && Decide(cmd, [content]).Ok? && Decide(cmd, [content]).value != []
    requires Guard(cmd, [content])
    ensures var w, c := World(s, map[0 := Op(cmd, [content])]), Commit(0, 0, None, None);
            && Allowed(w, c) && Next(w, c).ops == map[] && Open(Next(w, c).store, ComplianceStream(cmd.app))
            && Load(Next(w, c).store, ComplianceStream(cmd.app)) == content + Decide(cmd, [content]).value
  {
    CheckCommits(s, cmd, content);
  }

  lemma ThreeActs(acts: seq<Action>, cmd: Command)
    ensures var w := Exec(START, acts);
            var w2 := Next(Next(w, Begin(0, cmd)), LoadNext(0));
            && Exec(START, acts + CheckActs(cmd)) == Next(w2, Commit(0, 0, None, None))
            && (Obeys(START, acts + CheckActs(cmd)) <==>
                  && Obeys(START, acts) && Allowed(w, Begin(0, cmd)) && Allowed(Next(w, Begin(0, cmd)), LoadNext(0))
                  && Allowed(w2, Commit(0, 0, None, None)))
  {
    var b, l, c := Begin(0, cmd), LoadNext(0), Commit(0, 0, None, None);
    assert acts + CheckActs(cmd) == acts + [b] + [l] + [c];
    ExecMore(acts, b);
    ExecMore(acts + [b], l);
    ExecMore(acts + [b] + [l], c);
  }

  /** A guarded check that is let through alone adds its batch to its stream. */
  lemma OneCheck(acts: seq<Action>, cmd: Command, batch: seq<Event>)
    requires Obeys(START, acts) && Exec(START, acts).ops == map[] && cmd.CheckCompliance? && batch != []
    requires var s := Exec(START, acts).store;
             var loaded := [Load(s, ComplianceStream(cmd.app))];
             Open(s, ComplianceStream(cmd.app)) && Decide(cmd, loaded) == Ok(batch) && Guard(cmd, loaded)
    ensures var s, w' := Exec(START, acts).store, Exec(START, acts + CheckActs(cmd));
            && Obeys(START, acts + CheckActs(cmd)) && w'.ops == map[] && Open(w'.store, ComplianceStream(cmd.app))
            && Load(w'.store, ComplianceStream(cmd.app)) == Load(s, ComplianceStream(cmd.app)) + batch
  {
    var w := Exec(START, acts);
    EverySnapshotHolds(acts);
    ThreeActs(acts, cmd);
    CheckLoads(w, cmd);
    CheckEnds(w.store, cmd, Load(w.store, ComplianceStream(cmd.app)));
  }

  /** What a check of the rule without a name writes when it is the only mandatory one:
      at first, and when it passes again. */
  function FirstBatch(app: string, version: string): seq<Event> {
    [ComplianceCheckRequested(app, "", [""])] + [ComplianceRulePassed(app, "", version)]
    + [ComplianceCheckCompleted(app, Cleared, 1, 1, {})]
  }

  function SecondBatch(app: string, version: string): seq<Event> { [ComplianceRulePassed(app, "", version)] }

  function UnnamedRecord(app: string): CA.Compliance {
    CA.Compliance(Some(app), Some(""), {""}, {""}, map[], Cleared)
  }

  lemma UnnamedReplays(app: string, version: string)
    requires !IsBlank(version)
    ensures CA.ReplayRecord(FirstBatch(app, version)) == Ok(UnnamedRecord(app))
    ensures CA.ReplayRecord(FirstBatch(app, version) + SecondBatch(app, version)) == Ok(UnnamedRecord(app))
  {
    var request, pass := ComplianceCheckRequested(app, "", [""]), ComplianceRulePassed(app, "", version);
    var requested := CA.Compliance(Some(app), Some(""), {""}, {}, map[], Pending);
    assert CA.ToSet([""]) == {""};
    ReplayOne(CA.Step, CA.NEW_RECORD, request);
    assert CA.Step(CA.NEW_RECORD, request) == Ok(requested);
    ReplayMore(CA.Step, CA.NEW_RECORD, [request], pass);
    assert requested.passed + {""} == {""};
    assert CA.Step(requested, pass) == Ok(UnnamedRecord(app));
    ReplayMore(CA.Step, CA.NEW_RECORD, [request] + [pass], ComplianceCheckCompleted(app, Cleared, 1, 1, {}));
    ReplayMore(CA.Step, CA.NEW_RECORD, FirstBatch(app, version), pass);
    assert {""} + {""} == {""};
  }

  lemma UnnamedDecisions(cmd: Command, app: string, version: string)
    requires cmd == CheckCompliance(app, "", "", version, true, [""], None) && !IsBlank(version)
    ensures DecideCompliance(CA.NEW_RECORD, cmd) == Ok(FirstBatch(app, version))
    ensures DecideCompliance(UnnamedRecord(app), cmd) == Ok(SecondBatch(app, version))
    ensures ComplianceGuard(CA.NEW_RECORD, cmd) && ComplianceGuard(UnnamedRecord(app), cmd)
  {
    assert CA.ToSet([""]) == {""};
    var first, second := ForecastOf(CA.NEW_RECORD, cmd), ForecastOf(UnnamedRecord(app), cmd);
    assert first == Forecast({""}, {""}, map[]) == second;
    assert first.failed.Keys == {};
    assert [] + SecondBatch(app, version) + [] == SecondBatch(app, version);
  }

  lemma UnnamedView(app: string, version: string)
    ensures ViewFold(FirstBatch(app, version) + SecondBatch(app, version)).status.Pending?
  {
    var request, pass := ComplianceCheckRequested(app, "", [""]), ComplianceRulePassed(app, "", version);
    assert CA.ToSet([""]) == {""};
    assert [] + [request] == [request];
    FoldsMore([], request);
    FoldsMore([request], pass);
    FoldsMore([request] + [pass], ComplianceCheckCompleted(app, Cleared, 1, 1, {}));
    FoldsMore(FirstBatch(app, version), pass);
    assert "" in {""};
  }

  lemma UnnamedRun(cmd: Command, app: string, version: string)
    requires cmd == CheckCompliance(app, "", "", version, true, [""], None) && !IsBlank(version)
    ensures var acts := CheckActs(cmd) + CheckActs(cmd);
            && Obeys(START, acts)
            && Load(Exec(START, acts).store, ComplianceStream(app))
               == FirstBatch(app, version) + SecondBatch(app, version)
  {
    UnnamedReplays(app, version);
    UnnamedDecisions(cmd, app, version);
    assert CA.ReplayRecord([]) == Ok(CA.NEW_RECORD);
    OneCheck([], cmd, FirstBatch(app, version));
    assert [] + CheckActs(cmd) == CheckActs(cmd) && [] + FirstBatch(app, version) == FirstBatch(app, version);
    OneCheck(CheckActs(cmd), cmd, SecondBatch(app, version));
  }

  /** A guarded run on which the statuses differ too: the rule without a name passes
      twice; the verdict of the first pass clears both, the second recomputes PENDING
      in the projection alone. */
  lemma UnnamedRuleDiverges(app: string, version: string)
    requires app != "" && !IsBlank(version)
    ensures var cmd := CheckCompliance(app, "", "", version, true, [""], None);
            var acts := CheckActs(cmd) + CheckActs(cmd);
            var s := Exec(START, acts).store;
            && Obeys(START, acts) && CA.ReplayRecord(Load(s, ComplianceStream(app))).Ok?
            && CA.ReplayRecord(Load(s, ComplianceStream(app))).value.status.Cleared?
            && ViewOf(s.log, app).status.Pending?
  {
    var cmd := CheckCompliance(app, "", "", version, true, [""], None);
    var acts := CheckActs(cmd) + CheckActs(cmd);
    UnnamedRun(cmd, app, version);
    UnnamedReplays(app, version);
    EveryLogIsPlaced(acts);
    assert StreamOf(Exec(START, acts).store.log, ComplianceStream(app)) ==
           FirstBatch(app, version) + SecondBatch(app, version);
    FoldsReadTheStream(Exec(START, acts).store.log, app);
    UnnamedView(app, version);
  }
}
