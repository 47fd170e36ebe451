/** The projection daemon: several projections with their own checkpoints, fed
    from one log in batches, with retries that end in skipping an event. */
module Daemon {
  import opened Prelude
  import opened Events
  import ES = EventStore

  /** A projection: its name, its empty table and how one event moves the table. */
  datatype Projection<!T> = Projection(name: string, empty: T, apply: (T, StoredEvent) -> T)

  /** Global positions start above zero and grow; gaps are allowed. */
  predicate Numbered(log: seq<StoredEvent>) {
    ES.Ordered(log) && forall i | 0 <= i < |log| :: log[i].globalPosition > 0
  }

  /** The position of the newest event. */
  function Head(log: seq<StoredEvent>): nat {
    if log == [] then 0 else log[|log| - 1].globalPosition
  }

  /** How many events of the log lie at or below a checkpoint. */
  function CountUpTo(log: seq<StoredEvent>, checkpoint: nat): (n: nat)
    ensures n <= |log|
  {
    if log == [] then 0
    else if log[|log| - 1].globalPosition <= checkpoint then |log|
    else CountUpTo(log[..|log| - 1], checkpoint)
  }

  lemma {:induction false} CountSplits(log: seq<StoredEvent>, checkpoint: nat, i: nat)
    requires Numbered(log) && i < |log|
    ensures log[i].globalPosition <= checkpoint <==> i < CountUpTo(log, checkpoint)
    ensures CountUpTo(log, log[i].globalPosition) == i + 1
  {
    var before := log[..|log| - 1];
    if i < |log| - 1 {
      assert before[i] == log[i];
      CountSplits(before, checkpoint, i);
    }
  }

  lemma {:induction false} CountNothing(log: seq<StoredEvent>)
    requires Numbered(log)
    ensures CountUpTo(log, 0) == 0
  {
    if log != [] { CountNothing(log[..|log| - 1]); }
  }

  /** The table after the given events, leaving out the skipped positions. */
  function Fold<T>(p: Projection<T>, events: seq<StoredEvent>, skipped: set<nat>): T {
    if events == [] then p.empty
    else
      var before, e := Fold(p, events[..|events| - 1], skipped), events[|events| - 1];
      if e.globalPosition in skipped then before else p.apply(before, e)
  }

  lemma {:induction false} FoldIgnoresLaterSkips<T>(p: Projection<T>, events: seq<StoredEvent>, skipped: set<nat>,
                                                    position: nat)
    requires forall i | 0 <= i < |events| :: events[i].globalPosition < position
    ensures Fold(p, events, skipped + {position}) == Fold(p, events, skipped)
  {
    if events != [] { FoldIgnoresLaterSkips(p, events[..|events| - 1], skipped, position); }
  }

  /** One more event: applied, or skipped for good. */
  lemma FoldOneMore<T>(p: Projection<T>, log: seq<StoredEvent>, i: nat, skipped: set<nat>)
    requires Numbered(log) && i < |log| && log[i].globalPosition !in skipped
    ensures Fold(p, log[..i + 1], skipped) == p.apply(Fold(p, log[..i], skipped), log[i])
    ensures Fold(p, log[..i + 1], skipped + {log[i].globalPosition}) == Fold(p, log[..i], skipped)
  {
    assert log[..i + 1][..i] == log[..i];
    FoldIgnoresLaterSkips(p, log[..i], skipped, log[i].globalPosition);
  }

  /** Which attempts fail: whether attempt `k` of a projection on an event raises. */
  datatype Attempts = Attempts(fails: (string, nat, nat) -> bool, maxRetries: nat)
  {
    /** The first attempt and all retries fail. */
    predicate Exhausted(name: string, position: nat) {
      forall k | 0 <= k <= maxRetries :: fails(name, position, k)
    }
  }

  /** The positions of `log[from..until]` on which the retries run out. */
  function Skips(log: seq<StoredEvent>, tries: Attempts, name: string, from: nat, until: nat): set<nat>
    requires until <= |log|
    decreases until
  {
    if until <= from then {}
    else
      var position := log[until - 1].globalPosition;
      Skips(log, tries, name, from, until - 1) + if tries.Exhausted(name, position) then {position} else {}
  }

  /** What one projection holds: its table and checkpoint, and what it skipped. */
  datatype Progress<T> = Progress(table: T, checkpoint: nat, skipped: set<nat>)
  {
    function Done(log: seq<StoredEvent>): nat { CountUpTo(log, checkpoint) }
  }

  function Fresh<T>(p: Projection<T>): Progress<T> { Progress(p.empty, 0, {}) }

  /** The table equals the fold over exactly the events up to the checkpoint,
      each once, minus the skipped ones. */
  predicate Faithful<T(==)>(p: Projection<T>, log: seq<StoredEvent>, g: Progress<T>) {
    && g.table == Fold(p, log[..g.Done(log)], g.skipped)
    && g.checkpoint <= Head(log) && forall position | position in g.skipped :: position <= g.checkpoint
  }

  /** `_apply_event_with_retry`: table and checkpoint move in one transaction; when
      the retries run out only the checkpoint moves. */
  function AfterEvent<T>(p: Projection<T>, g: Progress<T>, e: StoredEvent, tries: Attempts): Progress<T> {
    if tries.Exhausted(p.name, e.globalPosition)
    then Progress(g.table, e.globalPosition, g.skipped + {e.globalPosition})
    else Progress(p.apply(g.table, e), e.globalPosition, g.skipped)
  }

  lemma AfterEventIsFaithful<T>(p: Projection<T>, log: seq<StoredEvent>, g: Progress<T>, tries: Attempts)
    requires Numbered(log) && Faithful(p, log, g) && g.Done(log) < |log|
    ensures var i := g.Done(log);
            var after := AfterEvent(p, g, log[i], tries);
            && Faithful(p, log, after) && after.Done(log) == i + 1
            && after.skipped == g.skipped + Skips(log, tries, p.name, i, i + 1)
  {
    var i := g.Done(log);
    CountSplits(log, g.checkpoint, i);
    FoldOneMore(p, log, i, g.skipped);
    assert Skips(log, tries, p.name, i, i) == {};
  }

  /** One projection given the events of the log up to `upTo` that it has not seen. */
  function Fed<T>(p: Projection<T>, log: seq<StoredEvent>, g: Progress<T>, upTo: nat, tries: Attempts): Progress<T>
    requires upTo <= |log|
    decreases upTo
  {
    if upTo <= g.Done(log) then g else AfterEvent(p, Fed(p, log, g, upTo - 1, tries), log[upTo - 1], tries)
  }

  /** Feeding keeps the table the fold up to the checkpoint and skips exactly the events
      whose retries run out. */
  lemma {:induction false} FedIsFaithful<T>(p: Projection<T>, log: seq<StoredEvent>, g: Progress<T>, upTo: nat,
                                            tries: Attempts)
    requires Numbered(log) && Faithful(p, log, g) && upTo <= |log|
    ensures var g' := Fed(p, log, g, upTo, tries);
            && Faithful(p, log, g') && g'.Done(log) == Max(g.Done(log), upTo)
            && g'.skipped == g.skipped + Skips(log, tries, p.name, g.Done(log), upTo)
    decreases upTo
  {
    if upTo > g.Done(log) {
      FedIsFaithful(p, log, g, upTo - 1, tries);
      AfterEventIsFaithful(p, log, Fed(p, log, g, upTo - 1, tries), tries);
      SkipOneMore(log, tries, p.name, g.Done(log), upTo);
    }
  }

  lemma SkipOneMore(log: seq<StoredEvent>, tries: Attempts, name: string, from: nat, until: nat)
    requires from < until <= |log|
    ensures Skips(log, tries, name, from, until) ==
            Skips(log, tries, name, from, until - 1) + Skips(log, tries, name, until - 1, until)
  {
    assert Skips(log, tries, name, until - 1, until - 1) == {};
  }

  /** Feeding in two parts is feeding at once. */
  lemma {:induction false} FedFurther<T>(p: Projection<T>, log: seq<StoredEvent>, g: Progress<T>, a: nat, b: nat,
                                         tries: Attempts)
    requires Numbered(log) && Faithful(p, log, g) && a <= b <= |log|
    ensures Fed(p, log, Fed(p, log, g, a, tries), b, tries) == Fed(p, log, g, b, tries)
    decreases b
  {
    FedIsFaithful(p, log, g, a, tries);
    if a < b { FedFurther(p, log, g, a, b - 1, tries); }
  }

  /** Whether the event at `i` is new to a projection fed up to `i`, by its checkpoint. */
  lemma FedOneMore<T>(p: Projection<T>, log: seq<StoredEvent>, g: Progress<T>, i: nat, tries: Attempts)
    requires Numbered(log) && Faithful(p, log, g) && i < |log|
    ensures var g' := Fed(p, log, g, i, tries);
            && (log[i].globalPosition <= g'.checkpoint <==> i < g.Done(log))
            && Fed(p, log, g, i + 1, tries) == if i < g.Done(log) then g' else AfterEvent(p, g', log[i], tries)
  {
    FedIsFaithful(p, log, g, i, tries);
    CountSplits(log, Fed(p, log, g, i, tries).checkpoint, i);
  }

  /** The lowest number of processed events among the projections. */
  function Lowest<T>(log: seq<StoredEvent>, gs: seq<Progress<T>>): nat
    requires gs != []
  {
    if |gs| == 1 then gs[0].Done(log) else Min(Lowest(log, gs[..|gs| - 1]), gs[|gs| - 1].Done(log))
  }

  lemma {:induction false} LowestIsLowest<T>(log: seq<StoredEvent>, gs: seq<Progress<T>>)
    requires gs != []
    ensures forall k | 0 <= k < |gs| :: Lowest(log, gs) <= gs[k].Done(log)
    ensures exists k :: 0 <= k < |gs| && Lowest(log, gs) == gs[k].Done(log)
  {
    var n := |gs| - 1;
    assert Lowest(log, gs) <= gs[n].Done(log);
    if n > 0 {
      var before := gs[..n];
      LowestIsLowest(log, before);
      var j :| 0 <= j < |before| && Lowest(log, before) == before[j].Done(log);
      assert gs[j] == before[j];
      assert forall k | 0 <= k < |before| :: gs[k] == before[k];
    }
  }

  function Checkpoints<T>(gs: seq<Progress<T>>): seq<nat> {
    seq(|gs|, k requires 0 <= k < |gs| => gs[k].checkpoint)
  }

  predicate AllFaithful<T(==)>(ps: seq<Projection<T>>, log: seq<StoredEvent>, gs: seq<Progress<T>>) {
    |gs| == |ps| && forall k | 0 <= k < |ps| :: Faithful(ps[k], log, gs[k])
  }

  /** The first `k` projections fed up to and with the event at `i`, the others up to it. */
  function FedRow<T>(ps: seq<Projection<T>>, log: seq<StoredEvent>, gs: seq<Progress<T>>, i: nat, k: nat,
                     tries: Attempts): seq<Progress<T>>
    requires |gs| == |ps| && i <= |log| && (k > 0 ==> i < |log|)
  {
    seq(|ps|, j requires 0 <= j < |ps| => Fed(ps[j], log, gs[j], if j < k then i + 1 else i, tries))
  }

  /** All projections fed up to `upTo`. */
  function FedAll<T>(ps: seq<Projection<T>>, log: seq<StoredEvent>, gs: seq<Progress<T>>, upTo: nat, tries: Attempts)
    : seq<Progress<T>>
    requires |gs| == |ps| && upTo <= |log|
  {
    FedRow(ps, log, gs, upTo, 0, tries)
  }

  /** How many events each projection took in on the way. */
  function TakenRow<T>(log: seq<StoredEvent>, gs: seq<Progress<T>>, i: nat, k: nat): seq<nat> {
    seq(|gs|, j requires 0 <= j < |gs| => Max(gs[j].Done(log), if j < k then i + 1 else i) - gs[j].Done(log))
  }

  /** Where a pass over all projections ends. */
  function PassEnd<T>(log: seq<StoredEvent>, gs: seq<Progress<T>>, batchSize: nat): (n: nat)
    requires gs != []
    ensures n <= |log|
  {
    Min(Lowest(log, gs) + batchSize, |log|)
  }

  lemma FedAllIsFaithful<T>(ps: seq<Projection<T>>, log: seq<StoredEvent>, gs: seq<Progress<T>>, upTo: nat,
                            tries: Attempts)
    requires Numbered(log) && AllFaithful(ps, log, gs) && upTo <= |log|
    ensures AllFaithful(ps, log, FedAll(ps, log, gs, upTo, tries))
    ensures forall k | 0 <= k < |ps| :: FedAll(ps, log, gs, upTo, tries)[k].Done(log) == Max(gs[k].Done(log), upTo)
  {
    forall k | 0 <= k < |ps| { FedIsFaithful(ps[k], log, gs[k], upTo, tries); }
  }

  lemma FedAllFurther<T>(ps: seq<Projection<T>>, log: seq<StoredEvent>, gs: seq<Progress<T>>, a: nat, b: nat,
                         tries: Attempts)
    requires Numbered(log) && AllFaithful(ps, log, gs) && a <= b <= |log|
    ensures FedAll(ps, log, FedAll(ps, log, gs, a, tries), b, tries) == FedAll(ps, log, gs, b, tries)
  {
    forall k | 0 <= k < |ps| { FedFurther(ps[k], log, gs[k], a, b, tries); }
  }

  lemma NothingFed<T>(ps: seq<Projection<T>>, log: seq<StoredEvent>, gs: seq<Progress<T>>, upTo: nat, tries: Attempts)
    requires |gs| == |ps| && upTo <= |log| && forall k | 0 <= k < |gs| :: upTo <= gs[k].Done(log)
    ensures FedAll(ps, log, gs, upTo, tries) == gs
    ensures TakenRow(log, gs, upTo, 0) == seq(|ps|, _ => 0)
  {
  }

  lemma RowStep<T>(ps: seq<Projection<T>>, log: seq<StoredEvent>, gs: seq<Progress<T>>, i: nat, k: nat, tries: Attempts)
    requires Numbered(log) && AllFaithful(ps, log, gs) && i < |log| && k < |ps|
    ensures var row, taken := FedRow(ps, log, gs, i, k, tries), TakenRow(log, gs, i, k);
            if log[i].globalPosition <= row[k].checkpoint then
              FedRow(ps, log, gs, i, k + 1, tries) == row && TakenRow(log, gs, i, k + 1) == taken
            else
              && FedRow(ps, log, gs, i, k + 1, tries) == row[k := AfterEvent(ps[k], row[k], log[i], tries)]
              && TakenRow(log, gs, i, k + 1) == taken[k := taken[k] + 1]
  {
    FedOneMore(ps[k], log, gs[k], i, tries);
  }

  lemma RowEnds<T>(ps: seq<Projection<T>>, log: seq<StoredEvent>, gs: seq<Progress<T>>, i: nat, tries: Attempts)
    requires |gs| == |ps| && i < |log|
    ensures FedRow(ps, log, gs, i, |ps|, tries) == FedAll(ps, log, gs, i + 1, tries)
    ensures TakenRow(log, gs, i, |ps|) == TakenRow(log, gs, i + 1, 0)
  {
  }

  class ProjectionDaemon<T(==)> {
    var log: seq<StoredEvent>
    const projections: seq<Projection<T>>
    const batchSize: nat
    /** The table, checkpoint row and skip history of each projection. */
    var progress: seq<Progress<T>>

    predicate Valid()
      reads this
    {
      Numbered(log) && batchSize > 0 && AllFaithful(projections, log, progress)
    }

    constructor (projections: seq<Projection<T>>, batchSize: nat)
      requires batchSize > 0
      ensures Valid() && this.projections == projections && log == [] && this.batchSize == batchSize
    {
      this.projections, this.batchSize, log := projections, batchSize, [];
      progress := seq(|projections|, k requires 0 <= k < |projections| => Fresh(projections[k]));
    }

    /** New events committed by others between runs. */
    method Commit(more: seq<StoredEvent>)
      requires Valid() && Numbered(log + more)
      modifies this`log
      ensures Valid() && log == old(log) + more
      ensures forall k | 0 <= k < |progress| :: progress[k].Done(log) == progress[k].Done(old(log))
    {
      forall k | 0 <= k < |progress|
        ensures progress[k].Done(log + more) == progress[k].Done(log)
        ensures Faithful(projections[k], log + more, progress[k])
      {
        StaysFaithful(projections[k], log, more, progress[k]);
      }
      log := log + more;
    }

    /** `_apply_event_with_retry`. */
    method ApplyEventWithRetry(k: nat, e: StoredEvent, tries: Attempts) returns (attempts: nat)
      requires k < |projections| == |progress|
      modifies this`progress
      ensures progress == old(progress)[k := AfterEvent(projections[k], old(progress)[k], e, tries)]
      ensures var name, g := projections[k].name, old(progress)[k];
              && 1 <= attempts <= tries.maxRetries + 1 && progress[k].checkpoint == e.globalPosition
              && (forall a: nat | a < attempts - 1 :: tries.fails(name, e.globalPosition, a))
              && if tries.fails(name, e.globalPosition, attempts - 1)
                 then attempts == tries.maxRetries + 1 && progress[k].table == g.table
                 else progress[k].table == projections[k].apply(g.table, e)
    {
      var p, g := projections[k], progress[k];
      var attempt: nat := 0;
      while true
        invariant attempt <= tries.maxRetries && progress == old(progress)
        invariant forall a | 0 <= a < attempt :: tries.fails(p.name, e.globalPosition, a)
        decreases tries.maxRetries - attempt
      {
        if !tries.fails(p.name, e.globalPosition, attempt) {
          progress := progress[k := Progress(p.apply(g.table, e), e.globalPosition, g.skipped)];
          return attempt + 1;
        }
        attempt := attempt + 1;
        if attempt > tries.maxRetries {
          progress := progress[k := Progress(g.table, e.globalPosition, g.skipped + {e.globalPosition})];
          return attempt;
        }
      }
    }

    /** `run_once` over all projections: one batch after the lowest checkpoint, each
        event given once to every projection that has not seen it. */
    method RunOnce(tries: Attempts) returns (results: seq<nat>)
      requires Valid()
      modifies this`progress
      ensures Valid()
      ensures projections == [] ==> progress == old(progress) && results == []
      ensures projections != [] ==>
                var upTo := PassEnd(log, old(progress), batchSize);
                && progress == FedAll(projections, log, old(progress), upTo, tries)
                && results == TakenRow(log, old(progress), upTo, 0)
    {
      results := seq(|projections|, _ => 0);
      if projections == [] { return; }
      var checkpoints := Checkpoints(progress);
      ghost var before := progress;
      var from, upTo := Lowest(log, progress), PassEnd(log, progress, batchSize);
      LowestIsLowest(log, before);
      NothingFed(projections, log, before, from, tries);
      for i := from to upTo
        invariant progress == FedAll(projections, log, before, i, tries) && results == TakenRow(log, before, i, 0)
        invariant checkpoints == Checkpoints(progress)
      {
        checkpoints, results := DeliverEvent(i, checkpoints, results, before, tries);
      }
      FedAllIsFaithful(projections, log, before, upTo, tries);
    }

    /** The inner loop of `run_once`: one event for every projection behind it. */
    method DeliverEvent(i: nat, oldCheckpoints: seq<nat>, oldResults: seq<nat>, ghost before: seq<Progress<T>>,
                        tries: Attempts)
      returns (checkpoints: seq<nat>, results: seq<nat>)
      requires Numbered(log) && i < |log| && oldCheckpoints == Checkpoints(progress)
      requires AllFaithful(projections, log, before)
      requires progress == FedAll(projections, log, before, i, tries) && oldResults == TakenRow(log, before, i, 0)
      modifies this`progress
      ensures progress == FedAll(projections, log, before, i + 1, tries) && results == TakenRow(log, before, i + 1, 0)
      ensures checkpoints == Checkpoints(progress)
    {
      checkpoints, results := oldCheckpoints, oldResults;
      for k := 0 to |projections|
        invariant progress == FedRow(projections, log, before, i, k, tries) && results == TakenRow(log, before, i, k)
        invariant checkpoints == Checkpoints(progress)
      {
        RowStep(projections, log, before, i, k, tries);
        if log[i].globalPosition > checkpoints[k] {
          var _ := ApplyEventWithRetry(k, log[i], tries);
          checkpoints := checkpoints[k := log[i].globalPosition];
          results := results[k := results[k] + 1];
        }
      }
      RowEnds(projections, log, before, i, tries);
    }

    /** `_run_projection_batch`. */
    method RunProjectionBatch(k: nat, tries: Attempts) returns (processed: nat)
      requires Valid() && k < |projections|
      modifies this`progress
      ensures Valid()
      ensures var done := old(progress)[k].Done(log);
              && processed == Min(batchSize, |log| - done)
              && progress == old(progress)[k := Fed(projections[k], log, old(progress)[k], done + processed, tries)]
    {
      ghost var p, g := projections[k], progress[k];
      var from := progress[k].Done(log);
      var upTo := Min(from + batchSize, |log|);
      for i := from to upTo
        invariant progress == old(progress)[k := Fed(p, log, g, i, tries)]
      {
        var _ := ApplyEventWithRetry(k, log[i], tries);
      }
      processed := upTo - from;
      FedIsFaithful(p, log, g, upTo, tries);
    }

    /** The generic `rebuild_projection`: reset, then batches until one is empty. */
    method RebuildProjection(k: nat, tries: Attempts)
      requires Valid() && k < |projections|
      modifies this`progress
      ensures Valid() && progress == old(progress)[k := Rebuilt(projections[k], log, tries)]
    {
      ghost var p := projections[k];
      progress := progress[k := Fresh(projections[k])];
      FreshFedFurther(p, log, 0, 0, tries);
      while true
        invariant Valid() && progress == old(progress)[k := progress[k]]
        invariant progress[k] == Fed(p, log, Fresh(p), progress[k].Done(log), tries)
        decreases |log| - progress[k].Done(log)
      {
        ghost var done := progress[k].Done(log);
        var processed := RunProjectionBatch(k, tries);
        FreshFedFurther(p, log, done, done + processed, tries);
        if processed == 0 { break; }
      }
    }

    /** `run_forever` up to its first idle pass. */
    method RunUntilIdle(tries: Attempts)
      requires Valid() && projections != []
      modifies this`progress
      ensures Valid() && progress == FedAll(projections, log, old(progress), |log|, tries)
      ensures forall k | 0 <= k < |projections| :: progress[k].Done(log) == |log|
    {
      ghost var before, m: nat := progress, 0;
      NothingFed(projections, log, before, 0, tries);
      while true
        invariant Valid() && m <= Lowest(log, progress) && m <= |log|
        invariant progress == FedAll(projections, log, before, m, tries)
        decreases |log| - Lowest(log, progress)
      {
        ghost var gs := progress;
        var results := RunOnce(tries);
        PassMoves(projections, log, gs, batchSize, tries);
        FedAllFurther(projections, log, before, m, PassEnd(log, gs, batchSize), tries);
        m := PassEnd(log, gs, batchSize);
        if Idle(results) { break; }
      }
      FedAllIsFaithful(projections, log, before, |log|, tries);
    }
  }

  /** What a rebuild from scratch leaves. */
  function Rebuilt<T>(p: Projection<T>, log: seq<StoredEvent>, tries: Attempts): Progress<T> {
    Fed(p, log, Fresh(p), |log|, tries)
  }

  lemma FreshIsFaithful<T>(p: Projection<T>, log: seq<StoredEvent>)
    requires Numbered(log)
    ensures Faithful(p, log, Fresh(p)) && Fresh(p).Done(log) == 0
  {
    CountNothing(log);
  }

  lemma FreshFedFurther<T>(p: Projection<T>, log: seq<StoredEvent>, a: nat, b: nat, tries: Attempts)
    requires Numbered(log) && a <= b <= |log|
    ensures Faithful(p, log, Fresh(p)) && Fresh(p).Done(log) == 0
    ensures Fed(p, log, Fed(p, log, Fresh(p), a, tries), b, tries) == Fed(p, log, Fresh(p), b, tries)
    ensures Fed(p, log, Fresh(p), b, tries).Done(log) == b
  {
    FreshIsFaithful(p, log);
    FedFurther(p, log, Fresh(p), a, b, tries);
    FedIsFaithful(p, log, Fresh(p), b, tries);
  }

  predicate Idle(results: seq<nat>) {
    forall k | 0 <= k < |results| :: results[k] == 0
  }

  /** On a fixed log a pass either lifts the lowest checkpoint or found every projection
      at the head. */
  lemma PassMoves<T>(ps: seq<Projection<T>>, log: seq<StoredEvent>, gs: seq<Progress<T>>, batchSize: nat,
                     tries: Attempts)
    requires ps != [] && Numbered(log) && AllFaithful(ps, log, gs) && batchSize > 0
    ensures var upTo := PassEnd(log, gs, batchSize);
            var gs', results := FedAll(ps, log, gs, upTo, tries), TakenRow(log, gs, upTo, 0);
            && Lowest(log, gs') == upTo && Lowest(log, gs) <= upTo
            && (Idle(results) ==> upTo == |log|)
            && (!Idle(results) ==> Lowest(log, gs) < upTo)
  {
    var upTo := PassEnd(log, gs, batchSize);
    var gs' := FedAll(ps, log, gs, upTo, tries);
    FedAllIsFaithful(ps, log, gs, upTo, tries);
    LowestIsLowest(log, gs);
    LowestIsLowest(log, gs');
    var j :| 0 <= j < |gs| && Lowest(log, gs) == gs[j].Done(log);
    assert gs'[j].Done(log) == upTo;
    assert TakenRow(log, gs, upTo, 0)[j] == upTo - Lowest(log, gs);
  }

  /** How much a pass takes in: every projection ends where the pass ends or stays where it
      was ahead of that, and one that was furthest behind takes a full batch, or all
      there is. */
  lemma PassTakesABatch<T>(ps: seq<Projection<T>>, log: seq<StoredEvent>, gs: seq<Progress<T>>, batchSize: nat, k: nat,
                           tries: Attempts)
    requires Numbered(log) && AllFaithful(ps, log, gs) && k < |ps|
    requires forall j | 0 <= j < |ps| :: gs[k].Done(log) <= gs[j].Done(log)
    ensures var upTo := PassEnd(log, gs, batchSize);
            var gs', results := FedAll(ps, log, gs, upTo, tries), TakenRow(log, gs, upTo, 0);
            && results[k] == Min(batchSize, |log| - gs[k].Done(log))
            && gs'[k].Done(log) == gs[k].Done(log) + results[k]
            && forall j | 0 <= j < |ps| ::
                 && gs'[j].Done(log) == Max(gs[j].Done(log), gs'[k].Done(log))
                 && results[j] == gs'[j].Done(log) - gs[j].Done(log)
  {
    LowestIsLowest(log, gs);
    FedAllIsFaithful(ps, log, gs, PassEnd(log, gs, batchSize), tries);
  }

  lemma {:induction false} CountKept(log: seq<StoredEvent>, more: seq<StoredEvent>, checkpoint: nat)
    requires Numbered(log + more) && checkpoint <= Head(log)
    ensures CountUpTo(log + more, checkpoint) == CountUpTo(log, checkpoint)
  {
    if more == [] {
      assert log + more == log;
    } else {
      var before := log + more[..|more| - 1];
      assert (log + more)[..|log + more| - 1] == before;
      assert Numbered(before);
      assert log != [] ==> (log + more)[|log| - 1] == log[|log| - 1];
      CountKept(log, more[..|more| - 1], checkpoint);
    }
  }

  /** Later events change nothing about what a projection has done. */
  lemma StaysFaithful<T>(p: Projection<T>, log: seq<StoredEvent>, more: seq<StoredEvent>, g: Progress<T>)
    requires Numbered(log + more) && Faithful(p, log, g)
    ensures g.Done(log + more) == g.Done(log) && Faithful(p, log + more, g)
  {
    CountKept(log, more, g.checkpoint);
    assert (log + more)[..g.Done(log)] == log[..g.Done(log)];
    if log != [] && more != [] {
      assert (log + more)[|log| - 1] == log[|log| - 1];
    }
  }

  /** The reader after a checkpoint gives the events the daemon counts as not yet seen. */
  lemma {:induction false} ReaderStartsAfterTheCheckpoint(log: seq<StoredEvent>, checkpoint: nat)
    requires Numbered(log)
    ensures ES.Select(log, checkpoint, None) == log[CountUpTo(log, checkpoint)..]
  {
    if log != [] {
      var before := log[..|log| - 1];
      if log[|log| - 1].globalPosition <= checkpoint {
        ES.SelectNothing(log, checkpoint, None);
      } else {
        ReaderStartsAfterTheCheckpoint(before, checkpoint);
      }
    }
  }

  /* ---------- whole runs of one daemon ---------- */

  /** Which attempts fail is settled anew for every pass, batch and rebuild, in each of
      which an event is given to a projection at most once. */
  datatype Act =
    | Committed(more: seq<StoredEvent>)
    | Passed(tries: Attempts)
    | Batched(k: nat, size: nat, tries: Attempts)  // a pass cut short is one of these for each projection
    | Emptied(k: nat)                              // the reset of a rebuild that gets no further
    | Reset(k: nat, tries: Attempts)               // a whole rebuild

  datatype State<T> = State(log: seq<StoredEvent>, progress: seq<Progress<T>>)

  /** What each act does, as the methods promise; an act that does not apply does nothing. */
  function After<T>(ps: seq<Projection<T>>, batchSize: nat, s: State<T>, a: Act): State<T>
    requires |s.progress| == |ps|
  {
    match a
    case Committed(more) => if Numbered(s.log + more) then s.(log := s.log + more) else s
    case Passed(tries) =>
      if ps == [] then s
      else s.(progress := FedAll(ps, s.log, s.progress, PassEnd(s.log, s.progress, batchSize), tries))
    case Batched(k, size, tries) =>
      if k >= |ps| then s
      else
        var upTo := BatchEnd(s.log, s.progress[k], size);
        s.(progress := s.progress[k := Fed(ps[k], s.log, s.progress[k], upTo, tries)])
    case Emptied(k) => if k >= |ps| then s else s.(progress := s.progress[k := Fresh(ps[k])])
    case Reset(k, tries) => if k >= |ps| then s else s.(progress := s.progress[k := Rebuilt(ps[k], s.log, tries)])
  }

  function BatchEnd<T>(log: seq<StoredEvent>, g: Progress<T>, size: nat): nat { Min(g.Done(log) + size, |log|) }

  function Run<T>(ps: seq<Projection<T>>, batchSize: nat, acts: seq<Act>): (s: State<T>)
    ensures |s.progress| == |ps|
  {
    if acts == [] then State([], seq(|ps|, k requires 0 <= k < |ps| => Fresh(ps[k])))
    else After(ps, batchSize, Run(ps, batchSize, acts[..|acts| - 1]), acts[|acts| - 1])
  }

  /** Act `a` gives the event at `i` to projection `k`. */
  predicate Gives<T>(ps: seq<Projection<T>>, batchSize: nat, s: State<T>, a: Act, k: nat, i: nat)
    requires |s.progress| == |ps| && k < |ps|
  {
    i < |s.log| &&
    match a
    case Passed(_) => s.progress[k].Done(s.log) <= i < PassEnd(s.log, s.progress, batchSize)
    case Batched(j, size, _) => j == k && s.progress[k].Done(s.log) <= i < BatchEnd(s.log, s.progress[k], size)
    case Reset(j, _) => j == k
    case _ => false
  }

  /** The attempts when projection `k` was last given the event at `i`, if it was since
      its last reset. */
  function LastTry<T>(ps: seq<Projection<T>>, batchSize: nat, acts: seq<Act>, k: nat, i: nat): Option<Attempts>
    requires k < |ps|
  {
    if acts == [] then None
    else
      var before, a := acts[..|acts| - 1], acts[|acts| - 1];
      if a == Emptied(k) then None
      else if Gives(ps, batchSize, Run(ps, batchSize, before), a, k, i) then Some(a.tries)
      else LastTry(ps, batchSize, before, k, i)
  }

  function Positions(log: seq<StoredEvent>): set<nat> { set e | e in log :: e.globalPosition }

  /** A projection in step with the log, whose skips are events of the log. */
  predicate Sound<T(==)>(p: Projection<T>, log: seq<StoredEvent>, g: Progress<T>) {
    Faithful(p, log, g) && g.skipped <= Positions(log)
  }

  /** What the last try tells of the event at `i`: it is done iff there was one, and
      skipped iff that one gave up. */
  predicate Told<T>(p: Projection<T>, log: seq<StoredEvent>, g: Progress<T>, i: nat, last: Option<Attempts>) {
    if i >= |log| then last.None?
    else
      && (i < g.Done(log) <==> last.Some?)
      && (log[i].globalPosition in g.skipped <==>
            last.Some? && last.value.Exhausted(p.name, log[i].globalPosition))
  }

  /** An event is among the skips iff its retries run out. */
  lemma {:induction false} SkipsAre(log: seq<StoredEvent>, tries: Attempts, name: string, from: nat, until: nat, i: nat)
    requires Numbered(log) && until <= |log|
    ensures Skips(log, tries, name, from, until) <= Positions(log)
    ensures i < |log| ==>
              (log[i].globalPosition in Skips(log, tries, name, from, until) <==>
                 from <= i < until && tries.Exhausted(name, log[i].globalPosition))
    decreases until
  {
    if from < until {
      SkipsAre(log, tries, name, from, until - 1, i);
      assert log[until - 1] in log;
    }
  }

  lemma FedTells<T>(p: Projection<T>, log: seq<StoredEvent>, g: Progress<T>, upTo: nat, tries: Attempts, i: nat,
                    last: Option<Attempts>)
    requires Numbered(log) && Sound(p, log, g) && upTo <= |log| && Told(p, log, g, i, last)
    ensures Sound(p, log, Fed(p, log, g, upTo, tries))
    ensures Told(p, log, Fed(p, log, g, upTo, tries), i,
                 if g.Done(log) <= i < upTo then Some(tries) else last)
  {
    FedIsFaithful(p, log, g, upTo, tries);
    SkipsAre(log, tries, p.name, g.Done(log), upTo, i);
  }

  lemma FreshTells<T>(p: Projection<T>, log: seq<StoredEvent>, i: nat)
    requires Numbered(log)
    ensures Sound(p, log, Fresh(p)) && Told(p, log, Fresh(p), i, None)
  {
    FreshIsFaithful(p, log);
  }

  lemma CommitTells<T>(p: Projection<T>, log: seq<StoredEvent>, more: seq<StoredEvent>, g: Progress<T>, i: nat,
                       last: Option<Attempts>)
    requires Numbered(log) && Numbered(log + more) && Sound(p, log, g) && Told(p, log, g, i, last)
    ensures Sound(p, log + more, g) && Told(p, log + more, g, i, last)
  {
    StaysFaithful(p, log, more, g);
    if i < |log + more| { CountSplits(log + more, g.checkpoint, i); }
  }

  /** Projection `k` after one act. */
  lemma ActTells<T>(ps: seq<Projection<T>>, batchSize: nat, s: State<T>, a: Act, k: nat, i: nat, last: Option<Attempts>)
    requires |s.progress| == |ps| && k < |ps| && Numbered(s.log)
    requires Sound(ps[k], s.log, s.progress[k]) && Told(ps[k], s.log, s.progress[k], i, last)
    ensures var s' := After(ps, batchSize, s, a);
            && Numbered(s'.log) && Sound(ps[k], s'.log, s'.progress[k])
            && Told(ps[k], s'.log, s'.progress[k], i,
                    if a == Emptied(k) then None
                    else if Gives(ps, batchSize, s, a, k, i) then Some(a.tries) else last)
  {
    var p, g := ps[k], s.progress[k];
    match a {
      case Committed(more) => if Numbered(s.log + more) { CommitTells(p, s.log, more, g, i, last); }
      case Passed(tries) => FedTells(p, s.log, g, PassEnd(s.log, s.progress, batchSize), tries, i, last);
      case Batched(j, size, tries) =>
        if j == k { FedTells(p, s.log, g, BatchEnd(s.log, g, size), tries, i, last); }
      case Emptied(j) => if j == k { FreshTells(p, s.log, i); }
      case Reset(j, tries) =>
        if j == k {
          FreshTells(p, s.log, i);
          FedTells(p, s.log, Fresh(p), |s.log|, tries, i, None);
        }
    }
  }

  lemma {:induction false} EveryRunTells<T>(ps: seq<Projection<T>>, batchSize: nat, acts: seq<Act>, k: nat, i: nat)
    requires k < |ps|
    ensures var s := Run(ps, batchSize, acts);
            && Numbered(s.log) && Sound(ps[k], s.log, s.progress[k])
            && Told(ps[k], s.log, s.progress[k], i, LastTry(ps, batchSize, acts, k, i))
  {
    if acts == [] {
      FreshTells(ps[k], [], i);
    } else {
      var before := acts[..|acts| - 1];
      EveryRunTells(ps, batchSize, before, k, i);
      ActTells(ps, batchSize, Run(ps, batchSize, before), acts[|acts| - 1], k, i,
               LastTry(ps, batchSize, before, k, i));
    }
  }

  /** Over every run of commits, passes, batches of any size, resets and rebuilds, whatever
      fails in each: a table is the fold of the events up to its checkpoint minus its skips,
      which are exactly the events whose last try since the last reset gave up. */
  lemma EveryTableIsItsFold<T>(ps: seq<Projection<T>>, batchSize: nat, acts: seq<Act>, k: nat)
    requires k < |ps|
    ensures var s := Run(ps, batchSize, acts);
            var g := s.progress[k];
            && g.table == Fold(ps[k], s.log[..g.Done(s.log)], g.skipped) && g.skipped <= Positions(s.log)
            && forall i: nat | i < |s.log| :: Told(ps[k], s.log, g, i, LastTry(ps, batchSize, acts, k, i))
  {
    EveryRunTells(ps, batchSize, acts, k, 0);
    forall i: nat { EveryRunTells(ps, batchSize, acts, k, i); }
  }

  /** The last try of the event at `i` gave up. */
  predicate GaveUp<T>(ps: seq<Projection<T>>, batchSize: nat, acts: seq<Act>, k: nat, i: nat)
    requires k < |ps| && i < |Run(ps, batchSize, acts).log|
  {
    var last := LastTry(ps, batchSize, acts, k, i);
    last.Some? && last.value.Exhausted(ps[k].name, Run(ps, batchSize, acts).log[i].globalPosition)
  }

  /** A rebuild now gives up on exactly the events whose last try gave up. */
  ghost predicate FailsAlike<T>(ps: seq<Projection<T>>, batchSize: nat, acts: seq<Act>, k: nat, now: Attempts)
    requires k < |ps|
  {
    var log := Run(ps, batchSize, acts).log;
    forall i: nat | i < |log| ::
      GaveUp(ps, batchSize, acts, k, i) <==> now.Exhausted(ps[k].name, log[i].globalPosition)
  }

  lemma RebuiltIs<T>(p: Projection<T>, log: seq<StoredEvent>, now: Attempts)
    requires Numbered(log)
    ensures var g := Rebuilt(p, log, now);
            && g.skipped == Skips(log, now, p.name, 0, |log|)
            && g.table == Fold(p, log, Skips(log, now, p.name, 0, |log|)) && g.checkpoint == Head(log)
  {
    FreshIsFaithful(p, log);
    FedIsFaithful(p, log, Fresh(p), |log|, now);
    assert {} + Skips(log, now, p.name, 0, |log|) == Skips(log, now, p.name, 0, |log|);
    assert log[..|log|] == log;
    if log != [] { CountSplits(log, Rebuilt(p, log, now).checkpoint, |log| - 1); }
  }

  lemma SameSkipsIff<T>(ps: seq<Projection<T>>, batchSize: nat, acts: seq<Act>, k: nat, now: Attempts)
    requires k < |ps|
    ensures var s := Run(ps, batchSize, acts);
            Numbered(s.log) && Sound(ps[k], s.log, s.progress[k]) &&
            (s.progress[k].skipped == Skips(s.log, now, ps[k].name, 0, |s.log|) <==>
               FailsAlike(ps, batchSize, acts, k, now))
  {
    var s := Run(ps, batchSize, acts);
    var kept, again := s.progress[k].skipped, Skips(s.log, now, ps[k].name, 0, |s.log|);
    EveryRunTells(ps, batchSize, acts, k, 0);
    SkipsAre(s.log, now, ps[k].name, 0, |s.log|, 0);
    forall i: nat | i < |s.log|
      ensures s.log[i].globalPosition in kept <==> GaveUp(ps, batchSize, acts, k, i)
      ensures s.log[i].globalPosition in again <==> now.Exhausted(ps[k].name, s.log[i].globalPosition)
    {
      EveryRunTells(ps, batchSize, acts, k, i);
      SkipsAre(s.log, now, ps[k].name, 0, |s.log|, i);
    }
    if FailsAlike(ps, batchSize, acts, k, now) {
      forall x ensures x in kept <==> x in again {
        if x in Positions(s.log) { var i: nat :| i < |s.log| && s.log[i].globalPosition == x; }
      }
    }
  }

  /** A projection at the head is what a rebuild now would leave, however batches, passes,
      commits and earlier rebuilds brought it there, exactly if the rebuild gives up on the
      same events. */
  lemma IncrementalMatchesRebuildIff<T>(ps: seq<Projection<T>>, batchSize: nat, acts: seq<Act>, k: nat, now: Attempts)
    requires k < |ps|
    requires var s := Run(ps, batchSize, acts); s.progress[k].Done(s.log) == |s.log|
    ensures var s := Run(ps, batchSize, acts);
            s.progress[k] == Rebuilt(ps[k], s.log, now) <==> FailsAlike(ps, batchSize, acts, k, now)
  {
    var s := Run(ps, batchSize, acts);
    SameSkipsIff(ps, batchSize, acts, k, now);
    RebuiltIs(ps[k], s.log, now);
    assert s.log[..|s.log|] == s.log;
    if s.log != [] { CountSplits(s.log, s.progress[k].checkpoint, |s.log| - 1); }
  }

  /* ---------- a projection that shows every skip ---------- */

  /** The projection whose table lists the positions it took in. */
  function Journal(name: string): Projection<seq<nat>> {
    Projection(name, [], (taken: seq<nat>, e: StoredEvent) => taken + [e.globalPosition])
  }

  lemma {:induction false} JournalShows(name: string, log: seq<StoredEvent>, skipped: set<nat>, x: nat)
    ensures x in Fold(Journal(name), log, skipped) <==> x in Positions(log) && x !in skipped
  {
    if log != [] {
      JournalShows(name, log[..|log| - 1], skipped, x);
      assert log == log[..|log| - 1] + [log[|log| - 1]];
    }
  }

  /** For such a table alone the condition is the same: no weaker one does for all projections. */
  lemma JournalMatchesRebuildIff(ps: seq<Projection<seq<nat>>>, batchSize: nat, acts: seq<Act>, k: nat, now: Attempts)
    requires k < |ps| && ps[k] == Journal(ps[k].name)
    requires var s := Run(ps, batchSize, acts); s.progress[k].Done(s.log) == |s.log|
    ensures var s := Run(ps, batchSize, acts);
            s.progress[k].table == Rebuilt(ps[k], s.log, now).table <==> FailsAlike(ps, batchSize, acts, k, now)
  {
    var s := Run(ps, batchSize, acts);
    var kept, again := s.progress[k].skipped, Skips(s.log, now, ps[k].name, 0, |s.log|);
    IncrementalMatchesRebuildIff(ps, batchSize, acts, k, now);
    SameSkipsIff(ps, batchSize, acts, k, now);
    RebuiltIs(ps[k], s.log, now);
    SkipsAre(s.log, now, ps[k].name, 0, |s.log|, 0);
    assert s.log[..|s.log|] == s.log;
    if s.progress[k].table == Rebuilt(ps[k], s.log, now).table {
      forall x: nat ensures x in kept <==> x in again {
        JournalShows(ps[k].name, s.log, kept, x);
        JournalShows(ps[k].name, s.log, again, x);
      }
    }
  }

  /** An event that a pass gave up on during an outage is missing for good, until a rebuild
      whose attempts succeed takes it in. */
  lemma OutageIsRebuiltAway(name: string, batchSize: nat, e: StoredEvent, down: Attempts, now: Attempts)
    requires batchSize > 0 && e.globalPosition == 1
    requires down.Exhausted(name, 1) && !now.Exhausted(name, 1)
    ensures var s := Run([Journal(name)], batchSize, [Committed([e]), Passed(down)]);
            && s.log == [e] && s.progress[0].Done(s.log) == 1
            && s.progress[0].table == [] && Rebuilt(Journal(name), s.log, now).table == [1]
  {
    var ps, p := [Journal(name)], Journal(name);
    assert [Committed([e]), Passed(down)] == [Committed([e])] + [Passed(down)];
    assert Run(ps, batchSize, []) == State([], [Fresh(p)]);
    RunOneMore(ps, batchSize, [], Committed([e]));
    RunOneMore(ps, batchSize, [Committed([e])], Passed(down));
    assert [] + [e] == [e] && [] + [Committed([e])] == [Committed([e])];
    assert Run(ps, batchSize, [Committed([e])]) == State([e], [Fresh(p)]);
    OneGivenUp(p, e, down);
    OneGivenUp(p, e, now);
    assert PassEnd([e], [Fresh(p)], batchSize) == 1;
  }

  lemma RunOneMore<T>(ps: seq<Projection<T>>, batchSize: nat, acts: seq<Act>, a: Act)
    ensures Run(ps, batchSize, acts + [a]) == After(ps, batchSize, Run(ps, batchSize, acts), a)
  {
    assert (acts + [a])[..|acts|] == acts;
  }

  lemma OneGivenUp<T>(p: Projection<T>, e: StoredEvent, tries: Attempts)
    requires e.globalPosition == 1
    ensures Fresh(p).Done([e]) == 0 && Progress(p.empty, 1, {}).Done([e]) == 1
    ensures Fed(p, [e], Fresh(p), 1, tries) == AfterEvent(p, Fresh(p), e, tries)
  {
    FreshIsFaithful(p, [e]);
  }
}
