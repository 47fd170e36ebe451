/** All handlers at once: each load and each append is one atomic step, and the
    steps of any number of handlers interleave freely. */
module Interleaving {
  import opened Prelude
  import opened Events
  import opened Replaying
  import opened EventStore
  import opened Handlers
  import opened Verdicts
  import HashChain
  import LA = LoanAggregate
  import CA = ComplianceAggregate
  import SA = SessionAggregate

  /** A handler in flight: its command and the streams it has loaded so far. */
  datatype Op = Op(cmd: Command, loaded: seq<seq<Event>>)

  datatype World = World(store: Store, ops: map<nat, Op>)

  const START := World(EMPTY_STORE, map[])

  datatype Action =
    | Begin(id: nat, cmd: Command)
    | LoadNext(id: nat)
    | Commit(id: nat, now: int, correlation: Option<string>, causation: Option<nat>)
    | Crash(id: nat)
    | Administer(op: StoreOp)

  /** The later phases of a submission are never commands of their own. */
  predicate IsExternal(cmd: Command) { !cmd.PackageDocuments? && !cmd.RequestAnalysis? }

  predicate IsReady(op: Op) { |op.loaded| == |Needs(op.cmd)| }

  function DraftOf(e: Event): Draft {
    Draft(e, if e.DecisionGenerated? then 2 else 1, HashChain.Metadata(None, None, map[]), None, None)
  }

  function Drafts(es: seq<Event>): (drafts: seq<Draft>)
    ensures |drafts| == |es|
    ensures forall i | 0 <= i < |es| :: drafts[i] == DraftOf(es[i])
  {
    seq(|es|, i requires 0 <= i < |es| => DraftOf(es[i]))
  }

  function RequestFor(op: Op, batch: seq<Event>, correlation: Option<string>, causation: Option<nat>): AppendRequest
    requires IsReady(op)
  {
    AppendRequest(Target(op.cmd), AggregateType(op.cmd), Drafts(batch), Expected(op.cmd, op.loaded),
                  MetaPatch(false, None, map[]), None, correlation, causation)
  }

  /** Validation on what was loaded, then the append; an exception in either ends
      the handler with nothing written. */
  function CommitOf(s: Store, op: Op, now: int, correlation: Option<string>, causation: Option<nat>)
    : Result<Store, Error>
    requires IsReady(op)
  {
    match Decide(op.cmd, op.loaded)
    case Err(e) => Err(e)
    case Ok(batch) => Append(s, RequestFor(op, batch, correlation, causation), now)
  }

  /** What a submission with documents goes on to do after its append. */
  function Continuation(cmd: Command, version: nat): Option<Op> {
    if cmd.Submit? && cmd.process then Some(Op(PackageDocuments(cmd.app, cmd.paths, version), []))
    else if cmd.PackageDocuments? then Some(Op(RequestAnalysis(cmd.app, cmd.loanVersion), []))
    else None
  }

  predicate CanCommit(w: World, act: Action) {
    act.Commit? && act.id in w.ops && IsReady(w.ops[act.id])
  }

  function CommitAt(w: World, act: Action): Result<Store, Error>
    requires CanCommit(w, act)
  {
    CommitOf(w.store, w.ops[act.id], act.now, act.correlation, act.causation)
  }

  function Settled(w: World, id: nat, s: Store, next: Option<Op>): World {
    if next.Some? then World(s, w.ops[id := next.value]) else World(s, w.ops - {id})
  }

  /** One step; an action that does not apply changes nothing. */
  function Next(w: World, act: Action): World {
    match act
    case Begin(id, cmd) =>
      if id !in w.ops && IsExternal(cmd) then w.(ops := w.ops[id := Op(cmd, [])]) else w
    case LoadNext(id) =>
      if id in w.ops && |w.ops[id].loaded| < |Needs(w.ops[id].cmd)| then
        var op := w.ops[id];
        w.(ops := w.ops[id := op.(loaded := op.loaded + [Load(w.store, Needs(op.cmd)[|op.loaded|])])])
      else w
    case Commit(id, _, _, _) =>
      if CanCommit(w, act) then
        match CommitAt(w, act)
        case Err(_) => w.(ops := w.ops - {id})
        case Ok(s) => Settled(w, id, s, Continuation(w.ops[id].cmd, StreamVersion(s, Target(w.ops[id].cmd))))
      else w
    case Crash(id) => w.(ops := w.ops - {id})
    case Administer(op) => if op.DoAppend? then w else w.(store := Perform(w.store, op))
  }

  function Exec(w: World, acts: seq<Action>): World {
    if acts == [] then w else Next(Exec(w, acts[..|acts| - 1]), acts[|acts| - 1])
  }

  /** The guards: whatever is appended satisfied the guard of its command. */
  predicate Allowed(w: World, act: Action) {
    CanCommit(w, act) && CommitAt(w, act).Ok? ==> Guard(w.ops[act.id].cmd, w.ops[act.id].loaded)
  }

  predicate Obeys(w: World, acts: seq<Action>) {
    acts == [] ||
    (Obeys(w, acts[..|acts| - 1]) && Allowed(Exec(w, acts[..|acts| - 1]), acts[|acts| - 1]))
  }

  /* ---------- what holds between steps ---------- */

  /** A loan replays, its compliance record is well judged, and the two are linked. */
  predicate HealthyApp(s: Store, app: string) {
    && LA.ReplayLoan(Load(s, LoanStream(app))).Ok?
    && WellJudged(Load(s, ComplianceStream(app)))
    && Linked(LA.ReplayLoan(Load(s, LoanStream(app))).value,
              CA.ReplayRecord(Load(s, ComplianceStream(app))).value.status)
  }

  ghost predicate Healthy(s: Store) {
    && ValidStore(s)
    && (forall app :: HealthyApp(s, app))
    && (forall a, b :: SA.ReplaySession(Load(s, SessionStream(a, b))).Ok?)
  }

  /** The loan a review loaded stays linked to the live record until it loads that
      record too, and from then on to what it loaded. */
  predicate ReviewLinked(s: Store, op: Op) {
    op.cmd.CompleteReview? && op.loaded != [] ==>
      && LA.ReplayLoan(op.loaded[0]).Ok?
      && var record := CA.ReplayRecord(if |op.loaded| == 1 then Load(s, ComplianceStream(op.cmd.app))
                                       else op.loaded[1]);
         record.Ok? && Linked(LA.ReplayLoan(op.loaded[0]).value, record.value.status)
  }

  /** A submission with documents left its loan SUBMITTED at the version it holds. */
  predicate SubmissionHolds(s: Store, cmd: Command) {
    cmd.PackageDocuments? || cmd.RequestAnalysis? ==>
      && 1 <= cmd.loanVersion <= |Load(s, LoanStream(cmd.app))|
      && LA.ReplayLoan(Load(s, LoanStream(cmd.app))[..cmd.loanVersion]).Ok?
      && LA.ReplayLoan(Load(s, LoanStream(cmd.app))[..cmd.loanVersion]).value.status.Submitted?
  }

  ghost predicate SnapshotsHold(s: Store, op: Op) {
    && |op.loaded| <= |Needs(op.cmd)|
    && forall i | 0 <= i < |op.loaded| :: op.loaded[i] <= Load(s, Needs(op.cmd)[i])
  }

  ghost predicate OpHolds(s: Store, op: Op) {
    SnapshotsHold(s, op) && ReviewLinked(s, op) && SubmissionHolds(s, op.cmd)
  }

  ghost predicate Inv(w: World) {
    && Healthy(w.store)
    && forall id | id in w.ops :: OpHolds(w.store, w.ops[id])
  }

  /* ---------- the commit step ---------- */

  /** A commit was made at exactly the version it expected, ends its own stream with its
      batch and touches no other. */
  lemma CommitExtends(s: Store, op: Op, now: int, correlation: Option<string>, causation: Option<nat>)
    requires ValidStore(s) && IsReady(op)
    requires CommitOf(s, op, now, correlation, causation).Ok?
    ensures var s' := CommitOf(s, op, now, correlation, causation).value;
            && ValidStore(s') && |Load(s, Target(op.cmd))| == Expected(op.cmd, op.loaded)
            && Load(s', Target(op.cmd)) == Load(s, Target(op.cmd)) + Decide(op.cmd, op.loaded).value
            && (forall name | name != Target(op.cmd) :: Load(s', name) == Load(s, name))
            && StreamVersion(s', Target(op.cmd)) == |Load(s', Target(op.cmd))|
  {
    var batch := Decide(op.cmd, op.loaded).value;
    AppendEffect(s, RequestFor(op, batch, correlation, causation), now);
    assert EventsOfDrafts(Drafts(batch)) == batch;
  }

  /** Where a command writes and as what. */
  predicate WritesTo(cmd: Command, stream: string, aggregateType: string) {
    match cmd
    case StartSession(agent, session, _, _, _, _) =>
      stream == "agent-" + agent + "-" + session && aggregateType == "AgentSession"
    case CompleteCredit(_, agent, session, _, _, _, _, _) =>
      stream == "agent-" + agent + "-" + session && aggregateType == "AgentSession"
    case CompleteFraud(_, agent, session, _, _, _) =>
      stream == "agent-" + agent + "-" + session && aggregateType == "AgentSession"
    case CheckCompliance(app, _, _, _, _, _, _) =>
      stream == "compliance-" + app && aggregateType == "ComplianceRecord"
    case PackageDocuments(app, _, _) => stream == "docpkg-" + app && aggregateType == "DocumentPackage"
    case _ => stream == "loan-" + cmd.app && aggregateType == "LoanApplication"
  }

  lemma CommitWritesToItsStream(s: Store, op: Op, now: int, correlation: Option<string>, causation: Option<nat>)
    requires IsReady(op) && CommitOf(s, op, now, correlation, causation).Ok?
    ensures var s' := CommitOf(s, op, now, correlation, causation).value;
            && Target(op.cmd) in s'.streams
            && WritesTo(op.cmd, Target(op.cmd), s'.streams[Target(op.cmd)].aggregateType)
  {
    var r := RequestFor(op, Decide(op.cmd, op.loaded).value, correlation, causation);
    AppendKeepsMetadata(s, r, now, "");
    TargetOf(op.cmd);
  }

  lemma TargetOf(cmd: Command)
    ensures WritesTo(cmd, Target(cmd), AggregateType(cmd))
  {
  }

  /** The rows of a commit, in the order of its batch: decisions at version two and every
      other event at version one, with the commit's correlation and causation. */
  lemma CommitWritesRows(s: Store, op: Op, batch: seq<Event>, now: int, correlation: Option<string>,
                         causation: Option<nat>, i: nat)
    requires ValidStore(s) && IsReady(op) && Decide(op.cmd, op.loaded) == Ok(batch) && i < |batch|
    requires CommitOf(s, op, now, correlation, causation).Ok?
    ensures var s', stream := CommitOf(s, op, now, correlation, causation).value, Target(op.cmd);
            var at := StreamVersion(s, stream) + i;
            && stream in s'.streams && at < |s'.streams[stream].rows|
            && var c := s'.streams[stream].rows[at].content;
            && c.event == batch[i] && c.version == (if batch[i].DecisionGenerated? then 2 else 1)
            && c.metadata.correlation == correlation && c.metadata.causation == causation
  {
    var r := RequestFor(op, batch, correlation, causation);
    assert r.drafts[i] == DraftOf(batch[i]);
    AppendWritesRows(s, r, now, i);
  }

  /** And its entries in the log and the outbox. */
  lemma CommitWritesLog(s: Store, op: Op, batch: seq<Event>, now: int, correlation: Option<string>,
                        causation: Option<nat>, i: nat)
    requires ValidStore(s) && IsReady(op) && Decide(op.cmd, op.loaded) == Ok(batch) && i < |batch|
    requires CommitOf(s, op, now, correlation, causation).Ok?
    ensures var n, s' := |s.log|, CommitOf(s, op, now, correlation, causation).value;
            && |s'.log| == |s'.outbox| == n + |batch|
            && s'.log[n + i].event == batch[i] && s'.log[n + i].stream == Target(op.cmd)
            && s'.log[n + i].causation == causation && s'.log[n + i].recordedAt == now
            && s'.outbox[n + i].topic == AggregateType(op.cmd) + ".events"
  {
    var r := RequestFor(op, batch, correlation, causation);
    assert r.drafts[i] == DraftOf(batch[i]);
    AppendWritesLog(s, r, now, i);
  }

  lemma SnapshotIsCurrent(s: Store, op: Op)
    requires SnapshotsHold(s, op) && IsReady(op) && |Load(s, Target(op.cmd))| == Expected(op.cmd, op.loaded)
    ensures op.cmd.RequestAnalysis? ==> |Load(s, LoanStream(op.cmd.app))| == op.cmd.loanVersion
    ensures !op.cmd.RequestAnalysis? ==> op.loaded[0] == Load(s, Target(op.cmd))
  {
    if !op.cmd.RequestAnalysis? { assert op.loaded[0] <= Load(s, Needs(op.cmd)[0]); }
  }

  /** A commit whose snapshots hold was validated against exactly the events that
      precede it in its own stream, or holds the version that stream is at. */
  lemma CommitSawItsStream(s: Store, op: Op, now: int, correlation: Option<string>, causation: Option<nat>)
    requires ValidStore(s) && SnapshotsHold(s, op) && IsReady(op)
    requires CommitOf(s, op, now, correlation, causation).Ok?
    ensures op.cmd.RequestAnalysis? ==> |Load(s, LoanStream(op.cmd.app))| == op.cmd.loanVersion
    ensures !op.cmd.RequestAnalysis? ==> op.loaded[0] == Load(s, Target(op.cmd))
    ensures var s' := CommitOf(s, op, now, correlation, causation).value;
            && ValidStore(s')
            && Load(s', Target(op.cmd)) == Load(s, Target(op.cmd)) + Decide(op.cmd, op.loaded).value
            && (forall name | name != Target(op.cmd) :: Load(s', name) == Load(s, name))
            && StreamVersion(s', Target(op.cmd)) == |Load(s', Target(op.cmd))|
  {
    CommitExtends(s, op, now, correlation, causation);
    SnapshotIsCurrent(s, op);
  }

  /* ---------- optimistic concurrency in every run, guarded or not ---------- */

  /** Whatever a handler has loaded is still the beginning of its stream. */
  ghost predicate Sighted(w: World) {
    ValidStore(w.store) && forall id | id in w.ops :: SnapshotsHold(w.store, w.ops[id])
  }

  lemma SnapshotsSurvive(s: Store, s': Store, op: Op)
    requires SnapshotsHold(s, op) && forall name :: Load(s, name) <= Load(s', name)
    ensures SnapshotsHold(s', op)
  {
    forall i | 0 <= i < |op.loaded| ensures op.loaded[i] <= Load(s', Needs(op.cmd)[i]) {
      assert op.loaded[i] <= Load(s, Needs(op.cmd)[i]) <= Load(s', Needs(op.cmd)[i]);
    }
  }

  /** Every stream of `s` is the beginning of that stream of `s'`. */
  ghost predicate Grew(s: Store, s': Store) {
    ValidStore(s') && forall name :: Load(s, name) <= Load(s', name)
  }

  lemma CommitGrows(s: Store, op: Op, now: int, correlation: Option<string>, causation: Option<nat>)
    requires ValidStore(s) && IsReady(op) && CommitOf(s, op, now, correlation, causation).Ok?
    ensures Grew(s, CommitOf(s, op, now, correlation, causation).value)
  {
    AppendEffect(s, RequestFor(op, Decide(op.cmd, op.loaded).value, correlation, causation), now);
  }

  lemma SettledKeepsSighted(w: World, id: nat, s': Store, next: Option<Op>)
    requires Sighted(w) && Grew(w.store, s') && (next.Some? ==> next.value.loaded == [])
    ensures Sighted(Settled(w, id, s', next))
  {
    forall i | i in w.ops ensures SnapshotsHold(s', w.ops[i]) { SnapshotsSurvive(w.store, s', w.ops[i]); }
  }

  lemma CommitKeepsSighted(w: World, act: Action)
    requires Sighted(w) && CanCommit(w, act) && CommitAt(w, act).Ok?
    ensures Sighted(Next(w, act)) && Grew(w.store, Next(w, act).store)
  {
    var op, s' := w.ops[act.id], CommitAt(w, act).value;
    CommitGrows(w.store, op, act.now, act.correlation, act.causation);
    SettledKeepsSighted(w, act.id, s', Continuation(op.cmd, StreamVersion(s', Target(op.cmd))));
  }

  lemma NextKeepsSighted(w: World, act: Action)
    requires Sighted(w)
    ensures Sighted(Next(w, act)) && Grew(w.store, Next(w, act).store)
  {
    match act {
      case LoadNext(id) =>
        if id in w.ops && |w.ops[id].loaded| < |Needs(w.ops[id].cmd)| { LoadKeepsSnapshots(w.store, w.ops[id]); }
      case Commit(_, _, _, _) => if CanCommit(w, act) && CommitAt(w, act).Ok? { CommitKeepsSighted(w, act); }
      case Administer(op) =>
        if !op.DoAppend? {
          AdminKeepsEvents(w.store, op);
          forall id | id in w.ops { SnapshotsSurvive(w.store, Perform(w.store, op), w.ops[id]); }
        }
      case _ =>
    }
  }

  lemma StartIsSighted()
    ensures Sighted(START)
  {
    forall name ensures StreamOf(EMPTY_STORE.log, name) == Load(EMPTY_STORE, name) {}
  }

  lemma {:induction false} EverySnapshotHolds(acts: seq<Action>)
    ensures Sighted(Exec(START, acts))
  {
    if acts == [] {
      StartIsSighted();
    } else {
      EverySnapshotHolds(acts[..|acts| - 1]);
      NextKeepsSighted(Exec(START, acts[..|acts| - 1]), acts[|acts| - 1]);
    }
  }

  lemma {:induction false} StreamsOnlyGrow(acts: seq<Action>, k: nat, name: string)
    requires k <= |acts|
    ensures Load(Exec(START, acts[..k]).store, name) <= Load(Exec(START, acts).store, name)
  {
    if k == |acts| {
      assert acts[..k] == acts;
    } else {
      var before := acts[..|acts| - 1];
      StreamsOnlyGrow(before, k, name);
      assert before[..k] == acts[..k];
      EverySnapshotHolds(before);
      NextKeepsSighted(Exec(START, before), acts[|acts| - 1]);
    }
  }

  /** In every interleaving, guards or not: a committed batch was validated against
      exactly the events that precede it in its own stream, ends that stream and
      touches no other. */
  lemma EveryCommitSawItsStream(acts: seq<Action>, act: Action)
    requires CanCommit(Exec(START, acts), act) && CommitAt(Exec(START, acts), act).Ok?
    ensures var w := Exec(START, acts);
            var op, s' := w.ops[act.id], CommitAt(w, act).value;
            && (!op.cmd.RequestAnalysis? ==> op.loaded[0] == Load(w.store, Target(op.cmd)))
            && Load(s', Target(op.cmd)) == Load(w.store, Target(op.cmd)) + Decide(op.cmd, op.loaded).value
            && (forall name | name != Target(op.cmd) :: Load(s', name) == Load(w.store, name))
  {
    var w := Exec(START, acts);
    EverySnapshotHolds(acts);
    CommitSawItsStream(w.store, w.ops[act.id], act.now, act.correlation, act.causation);
  }

  predicate IsLaterPhase(cmd: Command) { cmd.PackageDocuments? || cmd.RequestAnalysis? }

  /** From `w` to `w'` operation `id` turns from the submission that `cmd` continues into
      its next phase, and the loan stream is left at the version that `cmd` holds. */
  predicate Submits(w: World, w': World, id: nat, cmd: Command)
    requires IsLaterPhase(cmd)
  {
    && id in w.ops && w.ops[id].cmd.Submit? && w.ops[id].cmd.app == cmd.app && w.ops[id].cmd.process
    && id in w'.ops && w'.ops[id].cmd.PackageDocuments? && w'.ops[id].cmd.loanVersion == cmd.loanVersion
    && w'.ops[id].cmd.app == cmd.app && w'.ops[id].cmd.paths == w.ops[id].cmd.paths
    && StreamVersion(w'.store, LoanStream(cmd.app)) == cmd.loanVersion
  }

  lemma PhasesStep(w: World, act: Action, id: nat)
    requires id in Next(w, act).ops && IsLaterPhase(Next(w, act).ops[id].cmd)
    ensures var cmd := Next(w, act).ops[id].cmd;
            || Submits(w, Next(w, act), id, cmd)
            || (id in w.ops && IsLaterPhase(w.ops[id].cmd)
                && w.ops[id].cmd.app == cmd.app && w.ops[id].cmd.loanVersion == cmd.loanVersion)
  {
  }

  predicate SubmittedAt(acts: seq<Action>, k: nat, id: nat, cmd: Command)
    requires k < |acts| && IsLaterPhase(cmd)
  {
    Submits(Exec(START, acts[..k]), Exec(START, acts[..k + 1]), id, cmd)
  }

  lemma {:induction false} LaterPhasesWereSubmitted(acts: seq<Action>, id: nat)
    requires id in Exec(START, acts).ops && IsLaterPhase(Exec(START, acts).ops[id].cmd)
    ensures exists k: nat :: k < |acts| && SubmittedAt(acts, k, id, Exec(START, acts).ops[id].cmd)
  {
    var n := |acts| - 1;
    var before, cmd := acts[..n], Exec(START, acts).ops[id].cmd;
    var w := Exec(START, before);
    PhasesStep(w, acts[n], id);
    if Submits(w, Exec(START, acts), id, cmd) {
      assert acts[..n + 1] == acts;
      assert SubmittedAt(acts, n, id, cmd);
    } else {
      LaterPhasesWereSubmitted(before, id);
      var k: nat :| k < |before| && SubmittedAt(before, k, id, w.ops[id].cmd);
      assert before[..k] == acts[..k] && before[..k + 1] == acts[..k + 1];
      assert SubmittedAt(acts, k, id, cmd);
    }
  }

  lemma VersionIsLength(s: Store, name: string)
    requires ValidStore(s)
    ensures StreamVersion(s, name) == |Load(s, name)|
  {
    assert name in s.streams ==> ValidStream(name, s.streams[name]);
  }

  /** The second phase of a submission commits only if nothing entered the loan stream
      since the first phase of the same submission. */
  lemma SecondPhaseFollowsTheFirst(acts: seq<Action>, act: Action)
    requires CanCommit(Exec(START, acts), act) && CommitAt(Exec(START, acts), act).Ok?
    requires Exec(START, acts).ops[act.id].cmd.RequestAnalysis?
    ensures var cmd := Exec(START, acts).ops[act.id].cmd;
            exists k: nat :: k < |acts| && SubmittedAt(acts, k, act.id, cmd)
              && Load(Exec(START, acts).store, LoanStream(cmd.app)) ==
                 Load(Exec(START, acts[..k + 1]).store, LoanStream(cmd.app))
  {
    var w := Exec(START, acts);
    var cmd := w.ops[act.id].cmd;
    EverySnapshotHolds(acts);
    CommitExtends(w.store, w.ops[act.id], act.now, act.correlation, act.causation);
    LaterPhasesWereSubmitted(acts, act.id);
    var k: nat :| k < |acts| && SubmittedAt(acts, k, act.id, cmd);
    EverySnapshotHolds(acts[..k + 1]);
    VersionIsLength(Exec(START, acts[..k + 1]).store, LoanStream(cmd.app));
    StreamsOnlyGrow(acts, k + 1, LoanStream(cmd.app));
  }

  /** The loan events a command adds to a healthy loan stream. */
  predicate LoanReplays(cmd: Command, loaded: seq<seq<Event>>, content: seq<Event>, live: ComplianceStatus)
    requires |loaded| == |Needs(cmd)| && Decide(cmd, loaded).Ok?
  {
    var after := LA.ReplayLoan(content + Decide(cmd, loaded).value);
    after.Ok? && Linked(after.value, live)
  }

  predicate WritesLoan(cmd: Command) {
    cmd.Submit? || cmd.RequestAnalysis? || cmd.GenerateDecision? || cmd.CompleteReview?
  }

  predicate WritesSession(cmd: Command) { cmd.StartSession? || cmd.CompleteCredit? || cmd.CompleteFraud? }

  /** The stream a command writes still replays after its batch. */
  predicate TargetReplays(cmd: Command, content: seq<Event>) {
    if WritesLoan(cmd) then LA.ReplayLoan(content).Ok?
    else if WritesSession(cmd) then SA.ReplaySession(content).Ok?
    else cmd.CheckCompliance? ==> CA.ReplayRecord(content).Ok?
  }

  lemma SubmitCommit(cmd: Command, loaded: seq<seq<Event>>, live: ComplianceStatus)
    requires cmd.Submit? && |loaded| == 1 && Decide(cmd, loaded).Ok?
    requires LA.ReplayLoan(loaded[0]).Ok? && Linked(LA.ReplayLoan(loaded[0]).value, live)
    ensures LoanReplays(cmd, loaded, loaded[0], live)
    ensures LA.ReplayLoan(loaded[0] + Decide(cmd, loaded).value).value.status ==
            if cmd.process then LA.Submitted else LA.AwaitingAnalysis
  {
    SubmitBatchReplays(LA.ReplayLoan(loaded[0]).value, cmd);
    ReplayConcat(LA.Step, LA.NEW_LOAN, loaded[0], Decide(cmd, loaded).value);
    EmptyLoanIsFresh(loaded[0]);
  }

  lemma {:induction false} EmptyLoanIsFresh(events: seq<Event>)
    requires LA.ReplayLoan(events).Ok? && LA.ReplayLoan(events).value.status.Empty?
    ensures LA.ReplayLoan(events).value == LA.NEW_LOAN
  {
    if events != [] { EmptyLoanIsFresh(events[..|events| - 1]); }
  }

  lemma RequestCommit(cmd: Command, content: seq<Event>, live: ComplianceStatus)
    requires cmd.RequestAnalysis?
    requires LA.ReplayLoan(content).Ok? && LA.ReplayLoan(content).value.status.Submitted?
    requires Linked(LA.ReplayLoan(content).value, live)
    ensures LoanReplays(cmd, [], content, live)
  {
    AnalysisRequestsReplay(LA.ReplayLoan(content).value, cmd.app);
    ReplayConcat(LA.Step, LA.NEW_LOAN, content, Decide(cmd, []).value);
  }

  lemma DecisionCommit(cmd: Command, loaded: seq<seq<Event>>, record: seq<Event>)
    requires cmd.GenerateDecision? && |loaded| == |Needs(cmd)| && Decide(cmd, loaded).Ok?
    requires loaded[1] <= record && CA.ReplayRecord(record).Ok?
    ensures LA.ReplayLoan(loaded[0] + Decide(cmd, loaded).value).Ok? <==> Guard(cmd, loaded)
    ensures Guard(cmd, loaded) ==> LoanReplays(cmd, loaded, loaded[0], CA.ReplayRecord(record).value.status)
  {
    CA.ReplayMovesForward(loaded[1], record);
    var l, c := LA.ReplayLoan(loaded[0]).value, CA.ReplayRecord(loaded[1]).value;
    DecisionBatchReplaysIff(l, c, loaded[2..], cmd);
    ReplayConcat(LA.Step, LA.NEW_LOAN, loaded[0], Decide(cmd, loaded).value);
  }

  lemma ReviewCommit(cmd: Command, loaded: seq<seq<Event>>, live: ComplianceStatus)
    requires cmd.CompleteReview? && |loaded| == 2 && Decide(cmd, loaded).Ok?
    requires Linked(LA.ReplayLoan(loaded[0]).value, CA.ReplayRecord(loaded[1]).value.status)
    requires Linked(LA.ReplayLoan(loaded[0]).value, live)
    ensures LA.ReplayLoan(loaded[0] + Decide(cmd, loaded).value).Ok? <==> Guard(cmd, loaded)
    ensures Guard(cmd, loaded) ==> LoanReplays(cmd, loaded, loaded[0], live)
  {
    var l, c := LA.ReplayLoan(loaded[0]).value, CA.ReplayRecord(loaded[1]).value;
    ReviewBatchReplaysIff(l, c, cmd);
    ReplayConcat(LA.Step, LA.NEW_LOAN, loaded[0], Decide(cmd, loaded).value);
  }

  lemma SessionCommit(cmd: Command, loaded: seq<seq<Event>>)
    requires WritesSession(cmd) && |loaded| == |Needs(cmd)| && Decide(cmd, loaded).Ok?
    ensures SA.ReplaySession(loaded[0] + Decide(cmd, loaded).value).Ok? <==> Guard(cmd, loaded)
  {
    var s := SA.ReplaySession(loaded[0]).value;
    ReplayConcat(SA.Step, SA.NEW_SESSION, loaded[0], Decide(cmd, loaded).value);
    SA.ReplayedIsLoaded(loaded[0]);
    if cmd.StartSession? {
      SessionBatchReplaysIff(s, cmd);
    } else {
      AnalysisBatchesReplay(s, LA.ReplayLoan(loaded[1]).value, cmd);
    }
  }

  lemma ComplianceCommit(cmd: Command, loaded: seq<seq<Event>>)
    requires cmd.CheckCompliance? && |loaded| == 1 && Decide(cmd, loaded).Ok? && WellJudged(loaded[0])
    ensures CA.ReplayRecord(loaded[0] + Decide(cmd, loaded).value).Ok? <==> Guard(cmd, loaded)
    ensures Guard(cmd, loaded) ==> WellJudged(loaded[0] + Decide(cmd, loaded).value)
  {
    var c := CA.ReplayRecord(loaded[0]).value;
    CA.ReplayedIsConsistent(loaded[0]);
    ComplianceBatchReplaysIff(c, cmd);
    ReplayConcat(CA.Step, CA.NEW_RECORD, loaded[0], Decide(cmd, loaded).value);
    if Guard(cmd, loaded) { CheckKeepsWellJudged(loaded[0], cmd); }
  }

  lemma LinkedStays(l: LA.Loan, before: seq<Event>, after: seq<Event>)
    requires before <= after && CA.ReplayRecord(after).Ok?
    requires CA.ReplayRecord(before).Ok? && Linked(l, CA.ReplayRecord(before).value.status)
    ensures Linked(l, CA.ReplayRecord(after).value.status)
  {
    CA.ReplayMovesForward(before, after);
  }

  /** In every world that guarded steps reach: a commit leaves the stream it wrote
      replayable iff the guard of its command held on what it loaded. */
  lemma CommitReplaysIffGuard(w: World, act: Action)
    requires Inv(w) && CanCommit(w, act) && CommitAt(w, act).Ok?
    ensures var op := w.ops[act.id];
            TargetReplays(op.cmd, Load(CommitAt(w, act).value, Target(op.cmd))) <==> Guard(op.cmd, op.loaded)
  {
    var op := w.ops[act.id];
    var cmd, loaded, s := op.cmd, op.loaded, w.store;
    assert OpHolds(s, op);
    CommitSawItsStream(s, op, act.now, act.correlation, act.causation);
    if WritesLoan(cmd) {
      LoanCommitReady(s, op);
      LoanCommit(cmd, loaded, Load(s, LoanStream(cmd.app)), Load(s, ComplianceStream(cmd.app)));
    } else if WritesSession(cmd) {
      SessionCommit(cmd, loaded);
    } else if cmd.CheckCompliance? {
      assert HealthyApp(s, cmd.app);
      ComplianceCommit(cmd, loaded);
    }
  }

  /** What a handler that writes a loan stream may rely on when it commits. */
  predicate LoanCommitHolds(cmd: Command, loaded: seq<seq<Event>>, content: seq<Event>, record: seq<Event>)
    requires |loaded| == |Needs(cmd)|
  {
    && LA.ReplayLoan(content).Ok? && CA.ReplayRecord(record).Ok?
    && Linked(LA.ReplayLoan(content).value, CA.ReplayRecord(record).value.status)
    && match cmd
       case Submit(_, _, _, _) => loaded[0] == content
       case RequestAnalysis(_, _) => LA.ReplayLoan(content).value.status.Submitted?
       case GenerateDecision(_, _, _, _) => loaded[0] == content && loaded[1] <= record
       case CompleteReview(_, _, _, _, _) =>
         && loaded[0] == content && CA.ReplayRecord(loaded[1]).Ok?
         && Linked(LA.ReplayLoan(content).value, CA.ReplayRecord(loaded[1]).value.status)
       case _ => false
  }

  lemma LoanCommit(cmd: Command, loaded: seq<seq<Event>>, content: seq<Event>, record: seq<Event>)
    requires |loaded| == |Needs(cmd)| && Decide(cmd, loaded).Ok? && LoanCommitHolds(cmd, loaded, content, record)
    ensures LA.ReplayLoan(content + Decide(cmd, loaded).value).Ok? <==> Guard(cmd, loaded)
    ensures Guard(cmd, loaded) ==> LoanReplays(cmd, loaded, content, CA.ReplayRecord(record).value.status)
  {
    var live := CA.ReplayRecord(record).value.status;
    match cmd {
      case Submit(_, _, _, _) => SubmitCommit(cmd, loaded, live);
      case RequestAnalysis(_, v) =>
        RequestCommit(cmd, content, live);
        assert loaded == [];
      case GenerateDecision(_, _, _, _) => DecisionCommit(cmd, loaded, record);
      case CompleteReview(_, _, _, _, _) => ReviewCommit(cmd, loaded, live);
    }
  }

  lemma LoanCommitReady(s: Store, op: Op)
    requires Healthy(s) && OpHolds(s, op) && IsReady(op) && WritesLoan(op.cmd)
    requires op.cmd.RequestAnalysis? ==> |Load(s, LoanStream(op.cmd.app))| == op.cmd.loanVersion
    requires !op.cmd.RequestAnalysis? ==> op.loaded[0] == Load(s, LoanStream(op.cmd.app))
    ensures LoanCommitHolds(op.cmd, op.loaded, Load(s, LoanStream(op.cmd.app)), Load(s, ComplianceStream(op.cmd.app)))
  {
    var cmd, content := op.cmd, Load(s, LoanStream(op.cmd.app));
    assert HealthyApp(s, cmd.app);
    match cmd {
      case RequestAnalysis(_, v) => assert content[..v] == content;
      case GenerateDecision(_, _, _, _) => assert op.loaded[1] <= Load(s, Needs(cmd)[1]);
      case _ =>
    }
  }

  /** A guarded commit leaves every application and session healthy. */
  lemma CommitKeepsHealthy(w: World, act: Action)
    requires Inv(w) && CanCommit(w, act) && CommitAt(w, act).Ok? && Allowed(w, act)
    ensures Healthy(CommitAt(w, act).value)
  {
    var op := w.ops[act.id];
    var cmd, s, s' := op.cmd, w.store, CommitAt(w, act).value;
    assert OpHolds(s, op);
    CommitSawItsStream(s, op, act.now, act.correlation, act.causation);
    CommitReplaysIffGuard(w, act);
    StreamNames();
    forall app ensures HealthyApp(s', app) {
      assert HealthyApp(s, app);
      AppAfterCommit(s, op, s', app);
    }
    forall a, b ensures SA.ReplaySession(Load(s', SessionStream(a, b))).Ok? {
      assert SA.ReplaySession(Load(s, SessionStream(a, b))).Ok?;
    }
  }

  lemma AppAfterCommit(s: Store, op: Op, s': Store, app: string)
    requires Healthy(s) && OpHolds(s, op) && IsReady(op) && Decide(op.cmd, op.loaded).Ok? && Guard(op.cmd, op.loaded)
    requires op.cmd.RequestAnalysis? ==> |Load(s, LoanStream(op.cmd.app))| == op.cmd.loanVersion
    requires !op.cmd.RequestAnalysis? ==> op.loaded[0] == Load(s, Target(op.cmd))
    requires Load(s', Target(op.cmd)) == Load(s, Target(op.cmd)) + Decide(op.cmd, op.loaded).value
    requires forall name | name != Target(op.cmd) :: Load(s', name) == Load(s, name)
    ensures HealthyApp(s', app)
  {
    var cmd := op.cmd;
    StreamNames();
    assert HealthyApp(s, app);
    if WritesLoan(cmd) && cmd.app == app {
      LoanCommitReady(s, op);
      LoanCommit(cmd, op.loaded, Load(s, LoanStream(app)), Load(s, ComplianceStream(app)));
    } else if cmd.CheckCompliance? && cmd.app == app {
      ComplianceCommit(cmd, op.loaded);
      LinkedStays(LA.ReplayLoan(Load(s, LoanStream(app))).value, Load(s, ComplianceStream(app)),
                  Load(s', ComplianceStream(app)));
    } else {
      assert Target(cmd) != LoanStream(app) && Target(cmd) != ComplianceStream(app);
    }
  }

  /** What a handler holds survives the appends of others. */
  lemma OpSurvives(s: Store, s': Store, op: Op)
    requires OpHolds(s, op) && Healthy(s')
    requires forall name :: Load(s, name) <= Load(s', name)
    requires forall app :: CA.ReplayRecord(Load(s, ComplianceStream(app))).Ok?
    ensures OpHolds(s', op)
  {
    forall i | 0 <= i < |op.loaded| ensures op.loaded[i] <= Load(s', Needs(op.cmd)[i]) {
      assert op.loaded[i] <= Load(s, Needs(op.cmd)[i]);
      assert Load(s, Needs(op.cmd)[i]) <= Load(s', Needs(op.cmd)[i]);
    }
    if op.cmd.CompleteReview? && |op.loaded| == 1 {
      var app := op.cmd.app;
      assert HealthyApp(s', app) && CA.ReplayRecord(Load(s, ComplianceStream(app))).Ok?;
      LinkedStays(LA.ReplayLoan(op.loaded[0]).value, Load(s, ComplianceStream(app)), Load(s', ComplianceStream(app)));
    }
    if op.cmd.PackageDocuments? || op.cmd.RequestAnalysis? {
      var name := LoanStream(op.cmd.app);
      assert Load(s, name) <= Load(s', name);
      assert Load(s', name)[..op.cmd.loanVersion] == Load(s, name)[..op.cmd.loanVersion];
    }
  }

  lemma ContinuationHolds(s: Store, op: Op, s': Store, next: Op)
    requires Healthy(s) && OpHolds(s, op) && IsReady(op) && Decide(op.cmd, op.loaded).Ok?
    requires Healthy(s')
    requires !op.cmd.RequestAnalysis? ==> op.loaded[0] == Load(s, Target(op.cmd))
    requires Load(s', Target(op.cmd)) == Load(s, Target(op.cmd)) + Decide(op.cmd, op.loaded).value
    requires forall name | name != Target(op.cmd) :: Load(s', name) == Load(s, name)
    requires Continuation(op.cmd, |Load(s', Target(op.cmd))|) == Some(next)
    ensures OpHolds(s', next)
  {
    StreamNames();
    if op.cmd.Submit? {
      assert HealthyApp(s, op.cmd.app);
      SubmitCommit(op.cmd, op.loaded, CA.ReplayRecord(Load(s, ComplianceStream(op.cmd.app))).value.status);
      var content := Load(s', LoanStream(op.cmd.app));
      assert content[..|content|] == content;
    } else {
      assert Load(s', LoanStream(op.cmd.app)) == Load(s, LoanStream(op.cmd.app));
    }
  }

  lemma OpsSurvive(s: Store, s': Store, ops: map<nat, Op>)
    requires Healthy(s) && Healthy(s') && forall id | id in ops :: OpHolds(s, ops[id])
    requires forall name :: Load(s, name) <= Load(s', name)
    ensures forall id | id in ops :: OpHolds(s', ops[id])
  {
    forall app ensures CA.ReplayRecord(Load(s, ComplianceStream(app))).Ok? { assert HealthyApp(s, app); }
    forall id | id in ops ensures OpHolds(s', ops[id]) { OpSurvives(s, s', ops[id]); }
  }

  lemma SettledHolds(w: World, id: nat, s': Store, next: Option<Op>)
    requires Inv(w) && Healthy(s') && forall name :: Load(w.store, name) <= Load(s', name)
    requires next.Some? ==> OpHolds(s', next.value)
    ensures Inv(Settled(w, id, s', next))
  {
    OpsSurvive(w.store, s', w.ops);
  }

  lemma CommitGoesOn(w: World, act: Action)
    requires Inv(w) && CanCommit(w, act) && CommitAt(w, act).Ok? && Allowed(w, act)
    ensures var op, s' := w.ops[act.id], CommitAt(w, act).value;
            var next := Continuation(op.cmd, StreamVersion(s', Target(op.cmd)));
            && (forall name :: Load(w.store, name) <= Load(s', name))
            && (next.Some? ==> OpHolds(s', next.value))
  {
    var op, s' := w.ops[act.id], CommitAt(w, act).value;
    assert OpHolds(w.store, op);
    CommitSawItsStream(w.store, op, act.now, act.correlation, act.causation);
    CommitKeepsHealthy(w, act);
    var next := Continuation(op.cmd, StreamVersion(s', Target(op.cmd)));
    if next.Some? { ContinuationHolds(w.store, op, s', next.value); }
  }

  lemma CommitKeepsInv(w: World, act: Action)
    requires Inv(w) && CanCommit(w, act) && Allowed(w, act)
    ensures Inv(Next(w, act))
  {
    if CommitAt(w, act).Ok? {
      var s' := CommitAt(w, act).value;
      CommitKeepsHealthy(w, act);
      CommitGoesOn(w, act);
      var cmd := w.ops[act.id].cmd;
      SettledHolds(w, act.id, s', Continuation(cmd, StreamVersion(s', Target(cmd))));
    }
  }

  lemma LoadKeepsSnapshots(s: Store, op: Op)
    requires SnapshotsHold(s, op) && |op.loaded| < |Needs(op.cmd)|
    ensures SnapshotsHold(s, op.(loaded := op.loaded + [Load(s, Needs(op.cmd)[|op.loaded|])]))
  {
    var more := op.loaded + [Load(s, Needs(op.cmd)[|op.loaded|])];
    forall i | 0 <= i < |more| ensures more[i] <= Load(s, Needs(op.cmd)[i]) {
      if i < |op.loaded| { assert more[i] == op.loaded[i]; }
    }
  }

  lemma LoadKeepsOp(s: Store, op: Op)
    requires Healthy(s) && OpHolds(s, op) && |op.loaded| < |Needs(op.cmd)|
    ensures OpHolds(s, op.(loaded := op.loaded + [Load(s, Needs(op.cmd)[|op.loaded|])]))
  {
    LoadKeepsSnapshots(s, op);
    if op.cmd.CompleteReview? { assert HealthyApp(s, op.cmd.app); }
  }

  lemma LoadKeepsInv(w: World, id: nat)
    requires Inv(w) && id in w.ops && |w.ops[id].loaded| < |Needs(w.ops[id].cmd)|
    ensures Inv(Next(w, LoadNext(id)))
  {
    LoadKeepsOp(w.store, w.ops[id]);
  }

  lemma AdministerKeepsInv(w: World, op: StoreOp)
    requires Inv(w) && !op.DoAppend?
    ensures Inv(Next(w, Administer(op)))
  {
    var s, s' := w.store, Perform(w.store, op);
    AdminKeepsEvents(s, op);
    forall app ensures HealthyApp(s', app) { assert HealthyApp(s, app); }
    forall a, b ensures SA.ReplaySession(Load(s', SessionStream(a, b))).Ok? {
      assert SA.ReplaySession(Load(s, SessionStream(a, b))).Ok?;
    }
    OpsSurvive(s, s', w.ops);
  }

  lemma NextKeepsInv(w: World, act: Action)
    requires Inv(w) && Allowed(w, act)
    ensures Inv(Next(w, act))
  {
    match act {
      case Begin(_, _) =>
      case LoadNext(id) =>
        if id in w.ops && |w.ops[id].loaded| < |Needs(w.ops[id].cmd)| { LoadKeepsInv(w, id); }
      case Commit(_, _, _, _) => if CanCommit(w, act) { CommitKeepsInv(w, act); }
      case Crash(_) =>
      case Administer(op) => if !op.DoAppend? { AdministerKeepsInv(w, op); }
    }
  }

  /** Over every interleaving of handler steps that obeys the guards, every loan,
      compliance and session stream always replays, every compliance stream is
      well judged, and every loan stays linked to its record. */
  lemma {:induction false} EveryRunStaysHealthy(acts: seq<Action>)
    requires Obeys(START, acts)
    ensures Inv(Exec(START, acts))
  {
    if acts == [] {
      StartIsHealthy();
    } else {
      EveryRunStaysHealthy(acts[..|acts| - 1]);
      NextKeepsInv(Exec(START, acts[..|acts| - 1]), acts[|acts| - 1]);
    }
  }

  lemma StartIsHealthy()
    ensures Inv(START)
  {
    forall name ensures StreamOf(EMPTY_STORE.log, name) == Load(EMPTY_STORE, name) {}
    forall app ensures HealthyApp(EMPTY_STORE, app) {
      assert Load(EMPTY_STORE, LoanStream(app)) == [] && Load(EMPTY_STORE, ComplianceStream(app)) == [];
    }
  }
}
