/** The compliance audit tables: the live fold, the rebuild into shadow tables
    that are swapped in, and the query for the status at a moment. */
module Rebuild {
  import opened Prelude
  import opened Events
  import opened ComplianceView
  import opened Daemon
  import CA = ComplianceAggregate
  import ES = EventStore

  datatype StateRow = StateRow(state: ViewState, last: nat)

  datatype ViewRow = ViewRow(recordedAt: int, event: Event, status: ComplianceStatus, regulationSet: Option<string>)

  datatype Tables = Tables(states: map<string, StateRow>, rows: map<(string, nat), ViewRow>)
  {
    /** `_load_state`. */
    function StateFor(app: string): ViewState {
      if app in states then states[app].state else FRESH
    }
  }

  const EMPTY := Tables(map[], map[])

  const SUBSCRIBED: Option<Event -> bool> := Some(e => IsCompliance(e))

  /** `_apply_to_tables`: the state row is replaced, the timeline row is inserted
      unless it is there already. */
  function ApplyToTables(t: Tables, e: StoredEvent): Tables {
    if !IsCompliance(e.event) || e.event.appId == "" then t
    else
      var app, next := e.event.appId, NextState(t.StateFor(e.event.appId), e.event);
      var key := (app, e.globalPosition);
      Tables(t.states[app := StateRow(next, e.globalPosition)],
             if key in t.rows then t.rows
             else t.rows[key := ViewRow(e.recordedAt, e.event, next.status, next.regulationSet)])
  }

  function Applied(t: Tables, events: seq<StoredEvent>): Tables {
    if events == [] then t else ApplyToTables(Applied(t, events[..|events| - 1]), events[|events| - 1])
  }

  /** What the tables hold when exactly these events have been applied. */
  function TablesOf(log: seq<StoredEvent>): Tables { Applied(EMPTY, log) }

  function UpTo(log: seq<StoredEvent>, position: nat): seq<StoredEvent> { log[..CountUpTo(log, position)] }

  lemma {:induction false} AppliedConcat(t: Tables, a: seq<StoredEvent>, b: seq<StoredEvent>)
    ensures Applied(t, a + b) == Applied(Applied(t, a), b)
  {
    if b == [] {
      assert a + b == a;
    } else {
      assert (a + b)[..|a + b| - 1] == a + b[..|b| - 1];
      AppliedConcat(t, a, b[..|b| - 1]);
    }
  }

  /** Reading only the subscribed events loses nothing. */
  lemma {:induction false} SubscribedIsEnough(t: Tables, log: seq<StoredEvent>)
    requires Numbered(log)
    ensures Applied(t, ES.Select(log, 0, SUBSCRIBED)) == Applied(t, log)
  {
    if log != [] {
      var before, e := log[..|log| - 1], log[|log| - 1];
      SubscribedIsEnough(t, before);
      var read := ES.Select(before, 0, SUBSCRIBED);
      assert (read + [e])[..|read|] == read;
      assert read + [] == read;
      assert ES.Wanted(e, 0, SUBSCRIBED) <==> IsCompliance(e.event);
    }
  }

  /* ---------- the rebuild, interleaved with writers and the daemon ---------- */

  datatype Phase =
    | Idle
    | Replaying(until: nat, cursor: nat, shadow: Tables, stopped: bool)

  datatype World = World(log: seq<StoredEvent>, live: Tables, checkpoint: nat, phase: Phase)

  const START := World([], EMPTY, 0, Idle)

  datatype Action =
    | Append(more: seq<StoredEvent>)  // other processes commit events
    | RunOnce(batch: nat)             // the daemon feeds the live tables up to this many events
    | BeginRebuild
    | ReplayBatch(size: nat)          // one page of the rebuild's reader
    | Swap
    | Abandon                         // the rebuilding process dies

  /** The page the rebuild reads next. */
  function Page(log: seq<StoredEvent>, cursor: nat, size: nat): seq<StoredEvent> {
    ES.Take(ES.Select(log, cursor, SUBSCRIBED), size)
  }

  predicate Enabled(w: World, a: Action) {
    match a
    case Append(more) => Numbered(w.log + more)
    case RunOnce(_) => true
    case BeginRebuild => w.phase.Idle?
    case ReplayBatch(size) => w.phase.Replaying? && !w.phase.stopped && size > 0
    case Swap => w.phase.Replaying? && w.phase.stopped
    case Abandon => true
  }

  /** The page's events up to the end mark; whether one beyond it was seen is told
      by the lengths. */
  function Within(page: seq<StoredEvent>, until: nat): seq<StoredEvent> { UpTo(page, until) }

  function Next(w: World, a: Action): World
    requires Enabled(w, a)
  {
    match a
    case Append(more) => w.(log := w.log + more)
    case RunOnce(batch) =>
      var done := CountUpTo(w.log, w.checkpoint);
      var upTo := Min(done + batch, |w.log|);
      if upTo == done then w
      else w.(live := Applied(w.live, w.log[done..upTo]), checkpoint := w.log[upTo - 1].globalPosition)
    case BeginRebuild => w.(phase := Replaying(Head(w.log), 0, EMPTY, false))
    case ReplayBatch(size) =>
      var page := Page(w.log, w.phase.cursor, size);
      if page == [] then w.(phase := w.phase.(stopped := true))
      else
        var taken := Within(page, w.phase.until);
        w.(phase := Replaying(w.phase.until, page[|page| - 1].globalPosition, Applied(w.phase.shadow, taken),
                              |taken| < |page|))
    case Swap => World(w.log, w.phase.shadow, w.phase.until, Idle)
    case Abandon => w.(phase := Idle)
  }

  /** What the rebuild still has to read. */
  function Remaining(log: seq<StoredEvent>, p: Phase): seq<StoredEvent>
    requires p.Replaying?
  {
    if p.stopped then [] else ES.Select(UpTo(log, p.until), p.cursor, SUBSCRIBED)
  }

  /** The live tables are the fold of exactly the events at or below the
      checkpoint, and a rebuild under way will reach the same for its end mark. */
  predicate Inv(w: World) {
    && Numbered(w.log) && w.checkpoint <= Head(w.log)
    && w.live == TablesOf(UpTo(w.log, w.checkpoint))
    && (w.phase.Replaying? ==>
          && w.phase.until <= Head(w.log)
          && Applied(w.phase.shadow, Remaining(w.log, w.phase)) == TablesOf(UpTo(w.log, w.phase.until)))
  }

  lemma UpToIsOrdered(log: seq<StoredEvent>, position: nat)
    requires Numbered(log)
    ensures Numbered(UpTo(log, position)) && ES.Ordered(UpTo(log, position))
  {
  }

  lemma UpToHead(log: seq<StoredEvent>)
    ensures UpTo(log, Head(log)) == log
  {
  }

  lemma AppendKeepsUpTo(log: seq<StoredEvent>, more: seq<StoredEvent>, position: nat)
    requires Numbered(log + more) && position <= Head(log)
    ensures UpTo(log + more, position) == UpTo(log, position) && position <= Head(log + more)
  {
    CountKept(log, more, position);
    if more != [] && log != [] {
      assert (log + more)[|log| - 1] == log[|log| - 1];
    } else if more == [] {
      assert log + more == log;
    }
  }

  lemma {:induction false} SelectIsOrdered(log: seq<StoredEvent>, cursor: nat)
    requires Numbered(log)
    ensures Numbered(ES.Select(log, cursor, SUBSCRIBED))
  {
    if log != [] {
      SelectIsOrdered(log[..|log| - 1], cursor);
      ES.SelectBounds(log[..|log| - 1], cursor, SUBSCRIBED);
    }
  }

  /** What is selected up to an end mark is what is selected from the whole log, cut there. */
  lemma {:induction false} SelectUpTo(log: seq<StoredEvent>, cursor: nat, until: nat)
    requires Numbered(log)
    ensures ES.Select(UpTo(log, until), cursor, SUBSCRIBED) == UpTo(ES.Select(log, cursor, SUBSCRIBED), until)
  {
    if log != [] {
      var before, e := log[..|log| - 1], log[|log| - 1];
      var selected := ES.Select(before, cursor, SUBSCRIBED);
      if e.globalPosition <= until {
        ES.SelectBounds(log, cursor, SUBSCRIBED);
        UpToEverything(log, until);
        UpToEverything(ES.Select(log, cursor, SUBSCRIBED), until);
      } else {
        SelectUpTo(before, cursor, until);
        OneBeyond(before, e, until);
        OneBeyond(selected, e, until);
        assert log == before + [e];
        assert selected + [] == selected;
      }
    }
  }

  lemma OneBeyond(log: seq<StoredEvent>, e: StoredEvent, until: nat)
    requires e.globalPosition > until
    ensures UpTo(log + [e], until) == UpTo(log, until)
  {
    assert (log + [e])[..|log|] == log;
  }

  lemma UpToEverything(log: seq<StoredEvent>, until: nat)
    requires forall i | 0 <= i < |log| :: log[i].globalPosition <= until
    ensures UpTo(log, until) == log
  {
  }

  /* ---------- every step keeps the invariant ---------- */

  lemma AppendKeepsInv(w: World, more: seq<StoredEvent>)
    requires Inv(w) && Numbered(w.log + more)
    ensures Inv(Next(w, Append(more)))
  {
    AppendKeepsUpTo(w.log, more, w.checkpoint);
    if w.phase.Replaying? { AppendKeepsUpTo(w.log, more, w.phase.until); }
  }

  lemma RunOnceKeepsInv(w: World, batch: nat)
    requires Inv(w)
    ensures Inv(Next(w, RunOnce(batch)))
  {
    var done := CountUpTo(w.log, w.checkpoint);
    var upTo := Min(done + batch, |w.log|);
    if upTo != done { FoldsOn(w.log, done, upTo); }
  }

  /** Feeding the events from `done` to `upTo` moves the fold to the last of them. */
  lemma FoldsOn(log: seq<StoredEvent>, done: nat, upTo: nat)
    requires Numbered(log) && done < upTo <= |log|
    ensures log[upTo - 1].globalPosition <= Head(log)
    ensures TablesOf(UpTo(log, log[upTo - 1].globalPosition)) == Applied(TablesOf(log[..done]), log[done..upTo])
  {
    CountSplits(log, 0, upTo - 1);
    var before, batch := log[..done], log[done..upTo];
    assert UpTo(log, log[upTo - 1].globalPosition) == before + batch;
    AppliedConcat(EMPTY, before, batch);
  }

  lemma BeginKeepsInv(w: World)
    requires Inv(w) && w.phase.Idle?
    ensures Inv(Next(w, BeginRebuild))
  {
    UpToHead(w.log);
    SubscribedIsEnough(EMPTY, w.log);
  }

  /** A page, cut at the end mark, is the next part of what remained. */
  lemma PageIsNext(log: seq<StoredEvent>, until: nat, cursor: nat, size: nat)
    requires Numbered(log) && size > 0
    ensures var goal, page := UpTo(log, until), Page(log, cursor, size);
            var remaining, taken := ES.Select(goal, cursor, SUBSCRIBED), Within(page, until);
            && taken <= remaining
            && (|taken| < |page| || page == [] ==> taken == remaining)
            && (|taken| == |page| > 0 ==>
                  ES.Select(goal, page[|page| - 1].globalPosition, SUBSCRIBED) == remaining[|taken|..])
  {
    var goal, all := UpTo(log, until), ES.Select(log, cursor, SUBSCRIBED);
    SelectUpTo(log, cursor, until);
    SelectIsOrdered(log, cursor);
    UpToPrefix(all, until, if size < |all| then size else |all|);
    var page := Page(log, cursor, size);
    UpToIsOrdered(log, until);
    if |Within(page, until)| == |page| > 0 {
      ES.SelectResumes(goal, cursor, SUBSCRIBED, |page|);
    }
  }

  lemma UpToPrefix(log: seq<StoredEvent>, until: nat, k: nat)
    requires Numbered(log) && k <= |log|
    ensures UpTo(log[..k], until) == if k <= CountUpTo(log, until) then log[..k] else UpTo(log, until)
  {
    var prefix, n := log[..k], CountUpTo(log, until);
    if k <= n {
      forall i | 0 <= i < k ensures prefix[i].globalPosition <= until { CountSplits(log, until, i); }
      UpToEverything(prefix, until);
    } else {
      CountSplits(log, until, n);
      CountSplits(prefix, until, n);
      if n > 0 {
        CountSplits(log, until, n - 1);
        CountSplits(prefix, until, n - 1);
      }
    }
  }

  lemma ReplayKeepsInv(w: World, size: nat)
    requires Inv(w) && Enabled(w, ReplayBatch(size))
    ensures Inv(Next(w, ReplayBatch(size)))
  {
    var p := w.phase;
    PageIsNext(w.log, p.until, p.cursor, size);
    var remaining, page := Remaining(w.log, p), Page(w.log, p.cursor, size);
    var taken := Within(page, p.until);
    AppliedConcat(p.shadow, taken, remaining[|taken|..]);
    assert remaining == taken + remaining[|taken|..];
  }

  lemma NextKeepsInv(w: World, a: Action)
    requires Inv(w) && Enabled(w, a)
    ensures Inv(Next(w, a))
  {
    match a
    case Append(more) => AppendKeepsInv(w, more);
    case RunOnce(batch) => RunOnceKeepsInv(w, batch);
    case BeginRebuild => BeginKeepsInv(w);
    case ReplayBatch(size) => ReplayKeepsInv(w, size);
    case Swap =>
    case Abandon =>
  }

  /** A run; what is not enabled does not happen. */
  function Exec(w: World, acts: seq<Action>): World {
    if acts == [] then w
    else
      var before, a := Exec(w, acts[..|acts| - 1]), acts[|acts| - 1];
      if Enabled(before, a) then Next(before, a) else before
  }

  /** However writers, daemon passes and rebuilds interleave, and even when a swap
      moves the checkpoint back, the live tables are the fold of exactly the events
      at or below the checkpoint. */
  lemma {:induction false} EveryInterleavingIsFaithful(acts: seq<Action>)
    ensures Inv(Exec(START, acts))
  {
    if acts != [] {
      var before := Exec(START, acts[..|acts| - 1]);
      EveryInterleavingIsFaithful(acts[..|acts| - 1]);
      if Enabled(before, acts[|acts| - 1]) { NextKeepsInv(before, acts[|acts| - 1]); }
    }
  }

  /* ---------- the rebuild as code ---------- */

  /** What readers see at successive moments: the log only grows. */
  ghost predicate Growing(seen: nat -> seq<StoredEvent>) {
    && (forall n: nat :: Numbered(seen(n)))
    && (forall n: nat :: seen(0) <= seen(n))
  }

  lemma GoalStays(goal: seq<StoredEvent>, log: seq<StoredEvent>)
    requires Numbered(log) && goal <= log
    ensures UpTo(log, Head(goal)) == goal && Numbered(goal)
  {
    assert log == goal + log[|goal|..];
    AppendKeepsUpTo(goal, log[|goal|..], Head(goal));
    UpToHead(goal);
  }

  lemma WithinIs(page: seq<StoredEvent>, until: nat, j: nat)
    requires Numbered(page) && j <= |page|
    requires forall i | 0 <= i < j :: page[i].globalPosition <= until
    requires j < |page| ==> page[j].globalPosition > until
    ensures Within(page, until) == page[..j]
  {
    if j < |page| { CountSplits(page, until, j); }
    if j > 0 { CountSplits(page, until, j - 1); }
  }

  class ComplianceAuditViewProjection {
    var live: Tables
    var shadow: Tables
    var checkpoint: nat

    constructor ()
      ensures live == EMPTY && checkpoint == 0
    {
      live, shadow, checkpoint := EMPTY, EMPTY, 0;
    }

    /** One batch into the shadow tables, ending early at the first event past the end mark. */
    method ReplayIntoShadow(batch: seq<StoredEvent>, until: nat) returns (taken: nat, stop: bool)
      requires Numbered(batch)
      modifies this`shadow
      ensures taken == |Within(batch, until)| && shadow == Applied(old(shadow), Within(batch, until))
      ensures stop <==> taken < |batch|
    {
      taken, stop := 0, false;
      while taken < |batch|
        invariant taken <= |batch| && !stop && shadow == Applied(old(shadow), batch[..taken])
        invariant forall i | 0 <= i < taken :: batch[i].globalPosition <= until
      {
        if batch[taken].globalPosition > until { stop := true; break; }
        assert batch[..taken + 1][..taken] == batch[..taken];
        shadow := ApplyToTables(shadow, batch[taken]);
        taken := taken + 1;
      }
      WithinIs(batch, until, taken);
    }

    /** `rebuild_from_scratch` while others keep appending: `seen(0)` is the log when
        the end mark is taken, `seen(n)` the log when page `n` is read. */
    method RebuildFromScratch(seen: nat -> seq<StoredEvent>, batchSize: nat) returns (processed: Result<nat, Error>)
      requires Growing(seen)
      modifies this
      ensures batchSize == 0 ==> processed.Err? && live == old(live) && checkpoint == old(checkpoint)
      ensures batchSize > 0 ==>
                && live == TablesOf(seen(0)) && checkpoint == Head(seen(0))
                && processed == Ok(|ES.Select(seen(0), 0, SUBSCRIBED)|)
    {
      if batchSize == 0 { return Err(DomainError); }
      shadow := EMPTY;
      var until := Head(seen(0));
      var count: nat, n: nat, cursor: nat, stop := 0, 0, 0, false;
      ghost var left: nat := |ES.Select(seen(0), 0, SUBSCRIBED)|;
      SubscribedIsEnough(EMPTY, seen(0));
      while true
        invariant Underway(seen(0), shadow, cursor, stop, count, left)
        decreases left, !stop
      {
        n := n + 1;
        var batch := Page(seen(n), cursor, batchSize);
        if batch == [] || stop { break; }
        var taken;
        PageMoves(seen(0), seen(n), shadow, cursor, count, left, batchSize);
        taken, stop := ReplayIntoShadow(batch, until);
        left := left - taken;
        count := count + taken;
        cursor := batch[|batch| - 1].globalPosition;
      }
      NothingLeft(seen(0), seen(n), shadow, cursor, stop, count, left, batchSize);
      live, checkpoint := shadow, until;
      processed := Ok(count);
    }
  }

  /** A rebuild that read `count` events and has `left` more to read. */
  ghost predicate Underway(goal: seq<StoredEvent>, shadow: Tables, cursor: nat, stop: bool, count: nat, left: nat) {
    var remaining := if stop then [] else ES.Select(goal, cursor, SUBSCRIBED);
    && Applied(shadow, remaining) == TablesOf(goal)
    && left == |remaining| && count + left == |ES.Select(goal, 0, SUBSCRIBED)|
  }

  lemma PageMoves(goal: seq<StoredEvent>, log: seq<StoredEvent>, shadow: Tables, cursor: nat, count: nat, left: nat,
                  size: nat)
    requires Numbered(log) && goal <= log && size > 0 && Underway(goal, shadow, cursor, false, count, left)
    ensures var page := Page(log, cursor, size);
            var taken := Within(page, Head(goal));
            && Numbered(page) && |taken| <= left
            && (page != [] ==>
                  Underway(goal, Applied(shadow, taken), page[|page| - 1].globalPosition, |taken| < |page|,
                           count + |taken|, left - |taken|))
  {
    PageOfGrown(shadow, goal, log, cursor, size);
  }

  lemma NothingLeft(goal: seq<StoredEvent>, log: seq<StoredEvent>, shadow: Tables, cursor: nat, stop: bool, count: nat,
                    left: nat, size: nat)
    requires Numbered(log) && goal <= log && size > 0 && Underway(goal, shadow, cursor, stop, count, left)
    requires Page(log, cursor, size) == [] || stop
    ensures shadow == TablesOf(goal) && count == |ES.Select(goal, 0, SUBSCRIBED)|
  {
    PageOfGrown(shadow, goal, log, cursor, size);
  }

  lemma PageOfGrown(t: Tables, goal: seq<StoredEvent>, log: seq<StoredEvent>, cursor: nat, size: nat)
    requires Numbered(log) && goal <= log && size > 0
    ensures var page := Page(log, cursor, size);
            var remaining, taken := ES.Select(goal, cursor, SUBSCRIBED), Within(page, Head(goal));
            && Numbered(page) && taken <= remaining
            && (|taken| < |page| || page == [] ==> taken == remaining)
            && (|taken| == |page| > 0 ==>
                  ES.Select(goal, page[|page| - 1].globalPosition, SUBSCRIBED) == remaining[|taken|..])
            && Applied(Applied(t, taken), remaining[|taken|..]) == Applied(t, remaining)
  {
    GoalStays(goal, log);
    PageIsNext(log, Head(goal), cursor, size);
    SelectIsOrdered(log, cursor);
    var remaining, taken := ES.Select(goal, cursor, SUBSCRIBED), Within(Page(log, cursor, size), Head(goal));
    AppliedConcat(t, taken, remaining[|taken|..]);
    assert remaining == taken + remaining[|taken|..];
  }

  /* ---------- the status at a moment ---------- */

  /** The answer of the query: of the rows of the application recorded by `asOf`, the
      one with the latest time, and among those the highest position; none if no row is. */
  ghost predicate ComplianceAt(t: Tables, app: string, asOf: int, answer: Option<nat>) {
    match answer
    case None => forall p: nat | (app, p) in t.rows :: t.rows[(app, p)].recordedAt > asOf
    case Some(q) =>
      && (app, q) in t.rows && t.rows[(app, q)].recordedAt <= asOf
      && forall p: nat | (app, p) in t.rows && t.rows[(app, p)].recordedAt <= asOf ::
           || t.rows[(app, p)].recordedAt < t.rows[(app, q)].recordedAt
           || (t.rows[(app, p)].recordedAt == t.rows[(app, q)].recordedAt && p <= q)
  }

  /** Recording times never run against the positions. */
  predicate ClockInStep(log: seq<StoredEvent>) {
    forall i, j | 0 <= i < j < |log| :: log[i].recordedAt <= log[j].recordedAt
  }

  function RecordedBy(log: seq<StoredEvent>, asOf: int): seq<StoredEvent> {
    if log == [] then []
    else
      RecordedBy(log[..|log| - 1], asOf)
      + if log[|log| - 1].recordedAt <= asOf then [log[|log| - 1]] else []
  }

  /** The last event of an application, if any. */
  function LastOf(log: seq<StoredEvent>, app: string): Option<nat> {
    if log == [] then None
    else if Concerns(log[|log| - 1].event, app) then Some(log[|log| - 1].globalPosition)
    else LastOf(log[..|log| - 1], app)
  }

  /** The state row of an application is its live fold. */
  lemma {:induction false} StateRowIsTheFold(log: seq<StoredEvent>, app: string)
    ensures TablesOf(log).StateFor(app) == ViewOf(log, app)
    ensures app in TablesOf(log).states <==> LastOf(log, app).Some?
    ensures app in TablesOf(log).states ==> TablesOf(log).states[app].last == LastOf(log, app).value
  {
    if log != [] { StateRowIsTheFold(log[..|log| - 1], app); }
  }

  lemma {:induction false} LastIsBelowHead(log: seq<StoredEvent>, app: string)
    requires Numbered(log)
    ensures LastOf(log, app).Some? ==> 0 < LastOf(log, app).value <= Head(log)
  {
    if log != [] { LastIsBelowHead(log[..|log| - 1], app); }
  }

  /** The timeline has one row for every event of the application, holding the status after it. */
  lemma {:induction false} RowsAreTheTimeline(log: seq<StoredEvent>, app: string, p: nat)
    requires Numbered(log)
    ensures (app, p) in TablesOf(log).rows <==> LastOf(UpTo(log, p), app) == Some(p)
    ensures (app, p) in TablesOf(log).rows ==>
              var row, past := TablesOf(log).rows[(app, p)], UpTo(log, p);
              && row.status == ViewOf(past, app).status
              && past != [] && row.recordedAt == past[|past| - 1].recordedAt
  {
    if log != [] {
      var before, e := log[..|log| - 1], log[|log| - 1];
      RowsAreTheTimeline(before, app, p);
      if p < e.globalPosition {
        assert UpTo(log, p) == UpTo(before, p);
      } else {
        UpToEverything(before, p);
        UpToEverything(log, p);
        LastIsBelowHead(before, app);
        LastIsBelowHead(log, app);
        StateRowIsTheFold(before, app);
      }
    }
  }

  /** The events of one application, as far as the projection keeps them. */
  function OfApp(log: seq<StoredEvent>, app: string): seq<StoredEvent> {
    if log == [] then []
    else OfApp(log[..|log| - 1], app) + if Concerns(log[|log| - 1].event, app) then [log[|log| - 1]] else []
  }

  lemma {:induction false} OfAppIs(log: seq<StoredEvent>, app: string, e: StoredEvent)
    ensures e in OfApp(log, app) <==> e in log && Concerns(e.event, app)
  {
    if log != [] {
      OfAppIs(log[..|log| - 1], app, e);
      assert log == log[..|log| - 1] + [log[|log| - 1]];
    }
  }

  lemma {:induction false} RecordedByIs(log: seq<StoredEvent>, asOf: int, e: StoredEvent)
    ensures e in RecordedBy(log, asOf) <==> e in log && e.recordedAt <= asOf
  {
    if log != [] {
      RecordedByIs(log[..|log| - 1], asOf, e);
      assert log == log[..|log| - 1] + [log[|log| - 1]];
    }
  }

  /** The state of an application depends on its own events alone. */
  lemma {:induction false} ViewOfItsOwn(log: seq<StoredEvent>, app: string)
    ensures ViewOf(OfApp(log, app), app) == ViewOf(log, app)
  {
    if log != [] {
      var before, e := log[..|log| - 1], log[|log| - 1];
      ViewOfItsOwn(before, app);
      var own := OfApp(before, app);
      assert (own + [e])[..|own|] == own && own + [] == own;
    }
  }

  /** The event whose row the query gives: among those recorded by then, the one with
      the latest time, and among those the last. */
  function BestOf(log: seq<StoredEvent>, app: string, asOf: int): Option<StoredEvent> {
    if log == [] then None
    else
      var best, e := BestOf(log[..|log| - 1], app, asOf), log[|log| - 1];
      if Concerns(e.event, app) && e.recordedAt <= asOf && (best.None? || best.value.recordedAt <= e.recordedAt)
      then Some(e) else best
  }

  function PositionOf(e: Option<StoredEvent>): Option<nat> {
    if e.None? then None else Some(e.value.globalPosition)
  }

  lemma {:induction false} RowsAreBelowHead(log: seq<StoredEvent>, app: string, p: nat)
    requires Numbered(log)
    ensures (app, p) in TablesOf(log).rows ==> p <= Head(log)
  {
    if log != [] { RowsAreBelowHead(log[..|log| - 1], app, p); }
  }

  lemma {:induction false} BestAnswers(log: seq<StoredEvent>, app: string, asOf: int)
    requires Numbered(log)
    ensures var best, t := BestOf(log, app, asOf), TablesOf(log);
            && ComplianceAt(t, app, asOf, PositionOf(best))
            && (best.Some? ==>
                  && best.value in log && Concerns(best.value.event, app)
                  && t.rows[(app, best.value.globalPosition)].recordedAt == best.value.recordedAt)
  {
    if log != [] {
      var before, e := log[..|log| - 1], log[|log| - 1];
      BestAnswers(before, app, asOf);
      forall p: nat { RowsAreBelowHead(before, app, p); }
    }
  }

  /** The query has exactly one answer. */
  lemma QueryFindsTheBest(log: seq<StoredEvent>, app: string, asOf: int, answer: Option<nat>)
    requires Numbered(log)
    ensures ComplianceAt(TablesOf(log), app, asOf, answer) <==> answer == PositionOf(BestOf(log, app, asOf))
  {
    BestAnswers(log, app, asOf);
  }

  /** The answer is right: up to its row lie exactly the application's events recorded
      by then; no row means that none was. */
  predicate Right(log: seq<StoredEvent>, app: string, asOf: int, answer: Option<nat>) {
    OfApp(RecordedBy(log, asOf), app) == if answer.None? then [] else OfApp(UpTo(log, answer.value), app)
  }

  ghost predicate QueryIsRight(log: seq<StoredEvent>, app: string, asOf: int) {
    forall answer: Option<nat> | ComplianceAt(TablesOf(log), app, asOf, answer) :: Right(log, app, asOf, answer)
  }

  lemma InStepBefore(log: seq<StoredEvent>, app: string)
    requires log != [] && ClockInStep(OfApp(log, app))
    ensures var before, e := log[..|log| - 1], log[|log| - 1];
            && ClockInStep(OfApp(before, app))
            && (Concerns(e.event, app) ==>
                  forall i | 0 <= i < |OfApp(before, app)| :: OfApp(before, app)[i].recordedAt <= e.recordedAt)
  {
    var own := OfApp(log[..|log| - 1], app);
    assert forall i | 0 <= i < |own| :: OfApp(log, app)[i] == own[i];
    if Concerns(log[|log| - 1].event, app) { assert OfApp(log, app)[|own|] == log[|log| - 1]; }
  }

  lemma {:induction false} AllWereRecorded(log: seq<StoredEvent>, app: string, asOf: int)
    requires forall i | 0 <= i < |OfApp(log, app)| :: OfApp(log, app)[i].recordedAt <= asOf
    ensures OfApp(RecordedBy(log, asOf), app) == OfApp(log, app)
  {
    if log != [] {
      var before, e := log[..|log| - 1], log[|log| - 1];
      var own := OfApp(before, app);
      assert forall i | 0 <= i < |own| :: OfApp(log, app)[i] == own[i];
      if Concerns(e.event, app) { assert OfApp(log, app)[|own|] == e; }
      AllWereRecorded(before, app, asOf);
      RecordedMore(before, e, app, asOf);
    }
  }

  lemma RecordedMore(before: seq<StoredEvent>, e: StoredEvent, app: string, asOf: int)
    ensures OfApp(RecordedBy(before + [e], asOf), app) ==
            OfApp(RecordedBy(before, asOf), app)
            + if e.recordedAt <= asOf && Concerns(e.event, app) then [e] else []
  {
    assert (before + [e])[..|before|] == before;
    var past := RecordedBy(before, asOf);
    assert (past + [e])[..|past|] == past && past + [] == past;
  }

  lemma {:induction false} InStepIsRight(log: seq<StoredEvent>, app: string, asOf: int)
    requires Numbered(log) && ClockInStep(OfApp(log, app))
    ensures Right(log, app, asOf, PositionOf(BestOf(log, app, asOf)))
  {
    if log != [] {
      var before, e := log[..|log| - 1], log[|log| - 1];
      InStepBefore(log, app);
      assert log == before + [e];
      if Concerns(e.event, app) && e.recordedAt <= asOf {
        NewestIsRight(before, e, app, asOf);
      } else {
        InStepIsRight(before, app, asOf);
        StaysRight(before, e, app, asOf);
      }
    }
  }

  lemma NewestIsRight(before: seq<StoredEvent>, e: StoredEvent, app: string, asOf: int)
    requires Numbered(before + [e]) && Concerns(e.event, app) && e.recordedAt <= asOf
    requires forall i | 0 <= i < |OfApp(before, app)| :: OfApp(before, app)[i].recordedAt <= e.recordedAt
    ensures Right(before + [e], app, asOf, PositionOf(BestOf(before + [e], app, asOf)))
  {
    var log := before + [e];
    assert log[..|before|] == before && log[|before|] == e;
    assert forall i | 0 <= i < |before| :: log[i] == before[i];
    BestIsOwn(before, app, asOf);
    assert BestOf(log, app, asOf) == Some(e);
    AllWereRecorded(before, app, asOf);
    RecordedMore(before, e, app, asOf);
    UpToEverything(log, e.globalPosition);
  }

  lemma StaysRight(before: seq<StoredEvent>, e: StoredEvent, app: string, asOf: int)
    requires Numbered(before + [e]) && !(Concerns(e.event, app) && e.recordedAt <= asOf)
    requires Right(before, app, asOf, PositionOf(BestOf(before, app, asOf)))
    ensures Right(before + [e], app, asOf, PositionOf(BestOf(before + [e], app, asOf)))
  {
    assert (before + [e])[..|before|] == before;
    RecordedMore(before, e, app, asOf);
    assert forall i | 0 <= i < |before| :: (before + [e])[i] == before[i];
    BestIsOwn(before, app, asOf);
    if BestOf(before, app, asOf).Some? {
      assert (before + [e])[|before|] == e;
      OneBeyond(before, e, BestOf(before, app, asOf).value.globalPosition);
    }
  }

  lemma BestIsOwn(log: seq<StoredEvent>, app: string, asOf: int)
    requires Numbered(log)
    ensures var best := BestOf(log, app, asOf);
            best.Some? ==> best.value in OfApp(log, app) && best.value.globalPosition <= Head(log)
  {
    BestAnswers(log, app, asOf);
    if BestOf(log, app, asOf).Some? {
      OfAppIs(log, app, BestOf(log, app, asOf).value);
      RowsAreBelowHead(log, app, BestOf(log, app, asOf).value.globalPosition);
    }
  }

  /** Two events of an application out of clock order mislead the query at the later one's time. */
  lemma OutOfStepIsWrong(log: seq<StoredEvent>, app: string, x: StoredEvent, y: StoredEvent)
    requires Numbered(log) && x in log && y in log && Concerns(x.event, app) && Concerns(y.event, app)
    requires x.globalPosition < y.globalPosition && x.recordedAt > y.recordedAt
    ensures !QueryIsRight(log, app, y.recordedAt)
  {
    var asOf := y.recordedAt;
    var best := BestOf(log, app, asOf);
    BestAnswers(log, app, asOf);
    RowOf(log, app, y);
    var q := best.value.globalPosition;
    assert y.globalPosition <= q;
    UpToIs(log, q, x);
    OfAppIs(UpTo(log, q), app, x);
    OfAppIs(RecordedBy(log, asOf), app, x);
    RecordedByIs(log, asOf, x);
    assert !Right(log, app, asOf, Some(q));
  }

  lemma UpToIs(log: seq<StoredEvent>, q: nat, e: StoredEvent)
    requires Numbered(log) && e in log && e.globalPosition <= q
    ensures e in UpTo(log, q)
  {
    var i :| 0 <= i < |log| && log[i] == e;
    CountSplits(log, q, i);
    assert UpTo(log, q)[i] == e;
  }

  /** Every event of an application has its row. */
  lemma {:induction false} RowOf(log: seq<StoredEvent>, app: string, e: StoredEvent)
    requires Numbered(log) && e in log && Concerns(e.event, app)
    ensures (app, e.globalPosition) in TablesOf(log).rows
    ensures TablesOf(log).rows[(app, e.globalPosition)].recordedAt == e.recordedAt
  {
    var before, last := log[..|log| - 1], log[|log| - 1];
    RowsAreBelowHead(before, app, last.globalPosition);
    if e != last {
      assert log == before + [last];
      RowOf(before, app, e);
      RowsAreBelowHead(before, app, e.globalPosition);
    }
  }

  lemma {:induction false} OwnInOrder(log: seq<StoredEvent>, app: string, i: nat, j: nat)
    requires Numbered(log) && i < j < |OfApp(log, app)|
    ensures OfApp(log, app)[i].globalPosition < OfApp(log, app)[j].globalPosition
  {
    var before := log[..|log| - 1];
    var own := OfApp(before, app);
    if j < |own| {
      OwnInOrder(before, app, i, j);
    } else {
      OfAppIs(before, app, own[i]);
      assert OfApp(log, app)[i] == own[i];
    }
  }

  /** `get_compliance_at`, exactly: the query is right for an application at every moment
      if and only if the clock never ran against the positions of its own events. */
  lemma QueryIsRightIff(log: seq<StoredEvent>, app: string)
    requires Numbered(log)
    ensures (forall asOf: int :: QueryIsRight(log, app, asOf)) <==> ClockInStep(OfApp(log, app))
  {
    var own := OfApp(log, app);
    if ClockInStep(own) {
      forall asOf: int ensures QueryIsRight(log, app, asOf) {
        forall answer: Option<nat> { QueryFindsTheBest(log, app, asOf, answer); }
        InStepIsRight(log, app, asOf);
      }
    } else {
      var i, j :| 0 <= i < j < |own| && own[i].recordedAt > own[j].recordedAt;
      OwnInOrder(log, app, i, j);
      OfAppIs(log, app, own[i]);
      OfAppIs(log, app, own[j]);
      OutOfStepIsWrong(log, app, own[i], own[j]);
    }
  }

  /** A right answer tells the status of replaying exactly the events recorded by then. */
  lemma RightStatusIsTheReplay(log: seq<StoredEvent>, app: string, asOf: int, q: nat)
    requires Numbered(log) && ComplianceAt(TablesOf(log), app, asOf, Some(q)) && Right(log, app, asOf, Some(q))
    ensures TablesOf(log).rows[(app, q)].status == ViewOf(RecordedBy(log, asOf), app).status
  {
    RowsAreTheTimeline(log, app, q);
    ViewOfItsOwn(UpTo(log, q), app);
    ViewOfItsOwn(RecordedBy(log, asOf), app);
  }

  /** With the clock in step for the application, whatever the others' clocks do: the
      query finds its last event recorded by then, with the status of replaying exactly
      the events recorded by then. */
  lemma ComplianceAtIsTheReplay(log: seq<StoredEvent>, app: string, asOf: int, answer: Option<nat>)
    requires Numbered(log) && ClockInStep(OfApp(log, app)) && ComplianceAt(TablesOf(log), app, asOf, answer)
    ensures Right(log, app, asOf, answer)
    ensures answer.Some? ==>
              TablesOf(log).rows[(app, answer.value)].status == ViewOf(RecordedBy(log, asOf), app).status
  {
    QueryIsRightIff(log, app);
    assert QueryIsRight(log, app, asOf);
    if answer.Some? { RightStatusIsTheReplay(log, app, asOf, answer.value); }
  }

  /** The live projection is the daemon's fold with these tables. */
  lemma {:induction false} DaemonFoldsTheTables(log: seq<StoredEvent>)
    ensures Fold(Projection("compliance_audit_view", EMPTY, ApplyToTables), log, {}) == TablesOf(log)
  {
    if log != [] { DaemonFoldsTheTables(log[..|log| - 1]); }
  }

  lemma TablesOfThree(e: StoredEvent, f: StoredEvent, g: StoredEvent)
    ensures TablesOf([e, f, g]) == ApplyToTables(ApplyToTables(ApplyToTables(EMPTY, e), f), g)
  {
    assert [e, f, g][..2] == [e, f] && [e, f][..1] == [e] && [e][..0] == [];
    assert Applied(EMPTY, [e]) == ApplyToTables(Applied(EMPTY, []), e);
    assert Applied(EMPTY, [e, f]) == ApplyToTables(Applied(EMPTY, [e]), f);
  }

  /** What two checks of an application write when they open a record of three rules and
      pass two of them, the second check being recorded before the first. */
  predicate OutOfStep(e: StoredEvent, f: StoredEvent, g: StoredEvent, app: string, rules: seq<string>, asOf: int) {
    && app != "" && |rules| == 3 && rules[0] != rules[1] && rules[2] !in rules[..2] && "" !in rules
    && e.globalPosition == 1 && f.globalPosition == 2 && g.globalPosition == 3
    && g.recordedAt <= asOf < e.recordedAt == f.recordedAt
    && e.event.ComplianceCheckRequested? && e.event.appId == app && e.event.checks == rules
    && f.event.ComplianceRulePassed? && f.event.appId == app && f.event.ruleId == rules[0]
    && g.event.ComplianceRulePassed? && g.event.appId == app && g.event.ruleId == rules[1]
  }

  /** How a clock out of step misleads: asked for the earlier moment, the query answers
      PENDING, though by then only a pass without its request was recorded. */
  lemma ClockOutOfStepMisleads(e: StoredEvent, f: StoredEvent, g: StoredEvent, app: string, rules: seq<string>,
                               asOf: int)
    requires OutOfStep(e, f, g, app, rules, asOf)
    ensures Numbered([e, f, g]) && ComplianceAt(TablesOf([e, f, g]), app, asOf, Some(3))
    ensures TablesOf([e, f, g]).rows[(app, 3)].status.Pending?
    ensures ViewOf(RecordedBy([e, f, g], asOf), app).status.NotStarted?
  {
    TablesOfThree(e, f, g);
    assert rules[2] in CA.ToSet(rules);
    OnlyLastInTime(e, f, g, app, asOf);
  }

  lemma OnlyLastInTime(e: StoredEvent, f: StoredEvent, g: StoredEvent, app: string, asOf: int)
    requires g.recordedAt <= asOf < e.recordedAt == f.recordedAt && Concerns(g.event, app)
    ensures ViewOf(RecordedBy([e, f, g], asOf), app) == NextState(FRESH, g.event)
  {
    assert [e, f, g][..2] == [e, f] && [e, f][..1] == [e] && [e][..0] == [] && [g][..0] == [];
    assert RecordedBy([e], asOf) == [];
    assert RecordedBy([e, f], asOf) == RecordedBy([e], asOf) + [];
    assert RecordedBy([e, f, g], asOf) == [g];
  }
}
