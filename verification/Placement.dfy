/** Where the handlers put their events: the streams of a handler-built log. */
module Placement {
  import opened Prelude
  import opened Events
  import opened EventStore
  import opened Handlers
  import opened Interleaving
  import LA = LoanAggregate

  ghost predicate IsSessionStream(stream: string) {
    exists a, b :: stream == SessionStream(a, b)
  }

  /** Loan and compliance events live in the stream of their own application. */
  ghost predicate PlacedIn(stream: string, e: Event) {
    || (IsLoan(e) && stream == LoanStream(e.appId))
    || (IsCompliance(e) && stream == ComplianceStream(e.appId))
    || (IsSession(e) && IsSessionStream(stream))
    || (e.DocumentPackage? && stream == DocumentStream(e.appId))
  }

  ghost predicate Placed(log: seq<StoredEvent>) {
    forall i | 0 <= i < |log| :: PlacedIn(log[i].stream, log[i].event)
  }

  ghost predicate AllPlaced(stream: string, es: seq<Event>) {
    forall i | 0 <= i < |es| :: PlacedIn(stream, es[i])
  }

  /** For a placed event: being in an application's loan (compliance) stream is
      the same as being a loan (compliance) event of that application. */
  lemma PlacementReadsBothWays(stream: string, e: Event, app: string)
    requires PlacedIn(stream, e)
    ensures stream == LoanStream(app) <==> IsLoan(e) && e.appId == app
    ensures stream == ComplianceStream(app) <==> IsCompliance(e) && e.appId == app
  {
    StreamNames();
    if IsSession(e) {
      var a, b :| stream == SessionStream(a, b);
    }
  }

  lemma {:induction false} UploadsArePlaced(app: string, paths: seq<string>)
    ensures AllPlaced(LoanStream(app), Uploads(app, paths))
  {
    if paths != [] { UploadsArePlaced(app, paths[..|paths| - 1]); }
  }

  lemma {:induction false} PackageIsPlaced(app: string, paths: seq<string>)
    ensures AllPlaced(DocumentStream(app), PackageBody(app, paths))
  {
    if paths != [] { PackageIsPlaced(app, paths[..|paths| - 1]); }
  }

  lemma SubmissionIsPlaced(cmd: Command, l: LA.Loan)
    requires cmd.Submit? && DecideSubmit(l, cmd).Ok?
    ensures AllPlaced(LoanStream(cmd.app), DecideSubmit(l, cmd).value)
  {
    UploadsArePlaced(cmd.app, cmd.paths);
  }

  lemma DocumentsArePlaced(cmd: Command, current: seq<Event>)
    requires cmd.PackageDocuments? && DecidePackage(current, cmd).Ok?
    ensures AllPlaced(DocumentStream(cmd.app), DecidePackage(current, cmd).value)
  {
    PackageIsPlaced(cmd.app, cmd.paths);
  }

  lemma SessionBatchIsPlaced(cmd: Command, loaded: seq<seq<Event>>)
    requires cmd.StartSession? || cmd.CompleteCredit? || cmd.CompleteFraud?
    requires |loaded| == |Needs(cmd)| && Decide(cmd, loaded).Ok?
    ensures AllPlaced(Target(cmd), Decide(cmd, loaded).value)
  {
    assert IsSessionStream(SessionStream(cmd.agent, cmd.session));
  }

  lemma CheckIsPlaced(cmd: Command, c: CA.Compliance)
    requires cmd.CheckCompliance? && DecideCompliance(c, cmd).Ok?
    ensures AllPlaced(ComplianceStream(cmd.app), DecideCompliance(c, cmd).value)
  {
    assert AllPlaced(ComplianceStream(cmd.app), Opening(c, cmd));
    assert AllPlaced(ComplianceStream(cmd.app), Closing(c, cmd));
  }

  lemma DecisionIsPlaced(cmd: Command, l: LA.Loan, c: CA.Compliance, loaded: seq<seq<Event>>)
    requires cmd.GenerateDecision? && |loaded| == |cmd.sessions| && DecideDecision(l, c, loaded, cmd).Ok?
    ensures AllPlaced(LoanStream(cmd.app), DecideDecision(l, c, loaded, cmd).value)
  {
  }

  lemma ReviewIsPlaced(cmd: Command, l: LA.Loan, c: CA.Compliance)
    requires cmd.CompleteReview? && DecideReview(l, c, cmd).Ok?
    ensures AllPlaced(LoanStream(cmd.app), DecideReview(l, c, cmd).value)
  {
  }

  lemma BatchIsPlaced(cmd: Command, loaded: seq<seq<Event>>)
    requires |loaded| == |Needs(cmd)| && Decide(cmd, loaded).Ok?
    ensures AllPlaced(Target(cmd), Decide(cmd, loaded).value)
  {
    match cmd
    case Submit(_, _, _, _) => SubmissionIsPlaced(cmd, LA.ReplayLoan(loaded[0]).value);
    case PackageDocuments(_, _, _) => DocumentsArePlaced(cmd, loaded[0]);
    case RequestAnalysis(_, _) =>
    case CheckCompliance(_, _, _, _, _, _, _) => CheckIsPlaced(cmd, CA.ReplayRecord(loaded[0]).value);
    case GenerateDecision(_, _, _, _) =>
      DecisionIsPlaced(cmd, LA.ReplayLoan(loaded[0]).value, CA.ReplayRecord(loaded[1]).value, loaded[2..]);
    case CompleteReview(_, _, _, _, _) =>
      ReviewIsPlaced(cmd, LA.ReplayLoan(loaded[0]).value, CA.ReplayRecord(loaded[1]).value);
    case _ => SessionBatchIsPlaced(cmd, loaded);
  }

  lemma RowsArePlaced(log: seq<StoredEvent>, rows: seq<StoredEvent>, stream: string, version: nat)
    requires Placed(log) && NextRows(log, rows, stream, version) && AllPlaced(stream, EventsIn(rows))
    ensures Placed(log + rows)
  {
    forall i | 0 <= i < |rows| ensures PlacedIn(rows[i].stream, rows[i].event) {
      assert EventsIn(rows)[i] == rows[i].event;
    }
  }

  lemma AppendKeepsPlaced(s: Store, r: AppendRequest, now: int)
    requires ValidStore(s) && Append(s, r, now).Ok? && Placed(s.log)
    requires AllPlaced(r.stream, EventsOfDrafts(r.drafts))
    ensures Placed(Append(s, r, now).value.log)
  {
    AppendEffect(s, r, now);
    var version := StreamVersion(s, r.stream);
    NewLogIsNext(s.log, r, version, |r.drafts|, now);
    assert EventsOfDrafts(r.drafts)[..|r.drafts|] == EventsOfDrafts(r.drafts);
    RowsArePlaced(s.log, NewLog(r, version, |s.log|, |r.drafts|, now), r.stream, version);
  }

  lemma CommitKeepsPlaced(s: Store, op: Op, now: int, correlation: Option<string>, causation: Option<nat>)
    requires ValidStore(s) && Placed(s.log) && IsReady(op) && CommitOf(s, op, now, correlation, causation).Ok?
    ensures var s' := CommitOf(s, op, now, correlation, causation).value;
            ValidStore(s') && Placed(s'.log)
  {
    var batch := Decide(op.cmd, op.loaded).value;
    var r := RequestFor(op, batch, correlation, causation);
    BatchIsPlaced(op.cmd, op.loaded);
    assert EventsOfDrafts(r.drafts) == batch;
    AppendKeepsPlaced(s, r, now);
    AppendEffect(s, r, now);
  }

  lemma NextKeepsPlaced(w: World, act: Action)
    requires ValidStore(w.store) && Placed(w.store.log)
    ensures ValidStore(Next(w, act).store) && Placed(Next(w, act).store.log)
  {
    if CanCommit(w, act) && CommitAt(w, act).Ok? {
      CommitKeepsPlaced(w.store, w.ops[act.id], act.now, act.correlation, act.causation);
    } else if act.Administer? && !act.op.DoAppend? {
      AdminKeepsEvents(w.store, act.op);
    }
  }

  /** Every handler-built log is placed, guards or not. */
  lemma {:induction false} EveryLogIsPlaced(acts: seq<Action>)
    ensures ValidStore(Exec(START, acts).store) && Placed(Exec(START, acts).store.log)
  {
    if acts == [] {
      StartIsHealthy();
    } else {
      EveryLogIsPlaced(acts[..|acts| - 1]);
      NextKeepsPlaced(Exec(START, acts[..|acts| - 1]), acts[|acts| - 1]);
    }
  }
}
