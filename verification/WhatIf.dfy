/** The what-if projector: which events a counterfactual branch takes away. */
module WhatIf {
  import opened Prelude
  import opened Events
  import ComplianceView
  import Summary
  import LA = LoanAggregate

  type Index = map<nat, StoredEvent>

  /** `id_lookup`. */
  function IndexOf(events: seq<StoredEvent>): (index: Index)
    ensures forall k | k in index :: index[k].id == k
  {
    if events == [] then map[] else IndexOf(events[..|events| - 1])[events[|events| - 1].id := events[|events| - 1]]
  }

  /** A later event of the branch's own stream. */
  predicate Follows(branch: StoredEvent, e: StoredEvent) {
    e.stream == branch.stream && e.position > branch.position
  }

  /** Within `n` steps of causation, `e` goes back to the branch or to an event
      that follows it in its stream. */
  ghost predicate Reaches(branch: StoredEvent, index: Index, e: StoredEvent, n: nat)
    decreases n
  {
    || Follows(branch, e)
    || (e.causation.Some? &&
        (|| e.causation.value == branch.id
         || (n > 0 && e.causation.value in index && Reaches(branch, index, index[e.causation.value], n - 1))))
  }

  /** The causal closure of the branch. */
  ghost predicate InClosure(branch: StoredEvent, index: Index, e: StoredEvent) {
    exists n: nat :: Reaches(branch, index, e, n)
  }

  ghost predicate CausedBy(branch: StoredEvent, index: Index, e: StoredEvent, causes: iset<StoredEvent>) {
    e.causation.Some? &&
    (e.causation.value == branch.id || (e.causation.value in index && index[e.causation.value] in causes))
  }

  lemma {:induction false} ReachesMore(branch: StoredEvent, index: Index, e: StoredEvent, n: nat, m: nat)
    requires Reaches(branch, index, e, n) && n <= m
    ensures Reaches(branch, index, e, m)
    decreases n
  {
    if !Follows(branch, e) && e.causation.value != branch.id {
      ReachesMore(branch, index, index[e.causation.value], n - 1, m - 1);
    }
  }

  /** The closure unfolds: it holds the followers and whatever it or the branch causes. */
  lemma ClosureUnfolds(branch: StoredEvent, index: Index, e: StoredEvent)
    ensures InClosure(branch, index, e) <==>
            Follows(branch, e) || CausedBy(branch, index, e, iset x | InClosure(branch, index, x))
  {
    if InClosure(branch, index, e) {
      var n: nat :| Reaches(branch, index, e, n);
      if !Follows(branch, e) && e.causation.value != branch.id {
        assert Reaches(branch, index, index[e.causation.value], n - 1);
      }
    }
    if Follows(branch, e) || (e.causation.Some? && e.causation.value == branch.id) {
      assert Reaches(branch, index, e, 0);
    } else if CausedBy(branch, index, e, iset x | InClosure(branch, index, x)) {
      var n: nat :| Reaches(branch, index, index[e.causation.value], n);
      assert Reaches(branch, index, e, n + 1);
    }
  }

  /** It is the least such set. */
  lemma {:induction false} ClosureIsLeast(branch: StoredEvent, index: Index, closed: iset<StoredEvent>, e: StoredEvent,
                                          n: nat)
    requires forall x :: Follows(branch, x) || CausedBy(branch, index, x, closed) ==> x in closed
    requires Reaches(branch, index, e, n)
    ensures e in closed
    decreases n
  {
    if !Follows(branch, e) && e.causation.value != branch.id {
      ClosureIsLeast(branch, index, closed, index[e.causation.value], n - 1);
      assert CausedBy(branch, index, e, closed);
    }
  }

  /** What `_is_dependent` answers for an event that follows nothing: the first
      verdict up its chain of causes, false where the chain ends or closes. */
  function Walk(branch: StoredEvent, index: Index, memo: map<nat, bool>, current: StoredEvent, visited: set<nat>,
                universe: set<nat>): bool
    requires forall k | k in index :: index[k].id == k
    requires index.Keys <= universe && current.id in universe
    decreases universe - visited
  {
    if current.id in visited || current.causation.None? then false
    else
      var cause := current.causation.value;
      if cause == branch.id then true
      else if cause in memo then memo[cause]
      else if cause !in index then false
      else
        assert current.id in universe - visited;
        Walk(branch, index, memo, index[cause], visited + {current.id}, universe)
  }

  function Answer(branch: StoredEvent, index: Index, memo: map<nat, bool>, e: StoredEvent): bool
    requires forall k | k in index :: index[k].id == k
  {
    if e.id in memo then memo[e.id]
    else Follows(branch, e) || Walk(branch, index, memo, e, {}, index.Keys + {e.id})
  }

  /** `_is_dependent`: terminates on every causation graph, cycles included. */
  method IsDependent(branch: StoredEvent, index: Index, memo: map<nat, bool>, e: StoredEvent)
    returns (dependent: bool, memo': map<nat, bool>)
    requires forall k | k in index :: index[k].id == k
    ensures dependent == Answer(branch, index, memo, e)
    ensures memo' == memo[e.id := dependent]
  {
    if e.id in memo { return memo[e.id], memo; }
    if e.stream == branch.stream && e.position > branch.position { return true, memo[e.id := true]; }
    var visited: set<nat> := {};
    var current := e;
    ghost var universe := index.Keys + {e.id};
    while true
      invariant current.id in universe
      invariant Walk(branch, index, memo, e, {}, universe) == Walk(branch, index, memo, current, visited, universe)
      decreases universe - visited
    {
      if current.id in visited { return false, memo[e.id := false]; }
      assert current.id in universe - visited;
      visited := visited + {current.id};
      if current.causation.None? { return false, memo[e.id := false]; }
      var cause := current.causation.value;
      if cause == branch.id { return true, memo[e.id := true]; }
      if cause in memo { return memo[cause], memo[e.id := memo[cause]]; }
      if cause !in index { return false, memo[e.id := false]; }
      current := index[cause];
    }
  }

  /* ---------- the answers are the closure ---------- */

  /** Remembered yeses are in the closure. */
  ghost predicate MemoSound(branch: StoredEvent, index: Index, memo: map<nat, bool>) {
    forall k | k in memo && memo[k] && k in index :: InClosure(branch, index, index[k])
  }

  lemma {:induction false} WalkIsSound(branch: StoredEvent, index: Index, memo: map<nat, bool>, current: StoredEvent,
                                       visited: set<nat>, universe: set<nat>)
    requires forall k | k in index :: index[k].id == k
    requires index.Keys <= universe && current.id in universe
    requires MemoSound(branch, index, memo) && memo.Keys <= index.Keys
    requires Walk(branch, index, memo, current, visited, universe)
    ensures InClosure(branch, index, current)
    decreases universe - visited
  {
    var cause := current.causation.value;
    if cause != branch.id && cause !in memo {
      assert current.id in universe - visited;
      WalkIsSound(branch, index, memo, index[cause], visited + {current.id}, universe);
    }
    ClosureUnfolds(branch, index, current);
  }

  /** On any causation graph: a yes is always in the closure. */
  lemma AnswerIsSound(branch: StoredEvent, index: Index, memo: map<nat, bool>, e: StoredEvent)
    requires forall k | k in index :: index[k].id == k
    requires MemoSound(branch, index, memo) && memo.Keys <= index.Keys && e.id in index && index[e.id] == e
    requires Answer(branch, index, memo, e)
    ensures InClosure(branch, index, e)
  {
    ClosureUnfolds(branch, index, e);
    if e.id !in memo && !Follows(branch, e) { WalkIsSound(branch, index, memo, e, {}, index.Keys + {e.id}); }
  }

  /** The order the store gives: unique ids, causes strictly earlier, stream
      positions growing with global positions. */
  ghost predicate WellOrdered(events: seq<StoredEvent>) {
    && (forall i, j | 0 <= i < j < |events| ::
          && events[i].globalPosition < events[j].globalPosition && events[i].id != events[j].id
          && (events[i].stream == events[j].stream ==> events[i].position < events[j].position))
    && (forall i, j | 0 <= i < |events| && 0 <= j < |events| && events[i].causation == Some(events[j].id) :: j < i)
  }

  lemma {:induction false} IndexFinds(events: seq<StoredEvent>)
    requires forall i, j | 0 <= i < j < |events| :: events[i].id != events[j].id
    ensures forall i | 0 <= i < |events| ::
              events[i].id in IndexOf(events) && IndexOf(events)[events[i].id] == events[i]
    ensures forall k | k in IndexOf(events) :: IndexOf(events)[k] in events
  {
    if events != [] { IndexFinds(events[..|events| - 1]); }
  }

  /* ---------- when the answers are exactly the closure ---------- */

  ghost predicate UniqueIds(events: seq<StoredEvent>) {
    forall i, j | 0 <= i < j < |events| :: events[i].id != events[j].id
  }

  ghost predicate Inside(events: seq<StoredEvent>, b: nat, i: nat)
    requires b < |events| && i < |events|
  {
    InClosure(events[b], IndexOf(events), events[i])
  }

  /** The memo when the events between the branch and `i` have been judged in order. */
  function MemoAt(events: seq<StoredEvent>, b: nat, i: nat): map<nat, bool>
    requires b < |events| && i <= |events|
    decreases i, 0
  {
    if i <= b + 1 then map[]
    else MemoAt(events, b, i - 1)[events[i - 1].id := Verdict(events, b, i - 1)]
  }

  /** The answer for event `i` when its turn comes. */
  function Verdict(events: seq<StoredEvent>, b: nat, i: nat): bool
    requires b < |events| && i < |events|
    decreases i, 1
  {
    Answer(events[b], IndexOf(events), MemoAt(events, b, i), events[i])
  }

  /** The divergences when the events up to `i` have been judged. */
  function DroppedUpTo(events: seq<StoredEvent>, b: nat, i: nat): set<nat>
    requires b < |events| && i <= |events|
  {
    if i <= b + 1 then {b}
    else DroppedUpTo(events, b, i - 1) + if Verdict(events, b, i - 1) then {i - 1} else {}
  }

  lemma {:induction false} DroppedByVerdict(events: seq<StoredEvent>, b: nat, i: nat, k: nat)
    requires b < |events| && i <= |events|
    ensures k in DroppedUpTo(events, b, i) <==> k == b || (b < k < i && Verdict(events, b, k))
  {
    if i > b + 1 { DroppedByVerdict(events, b, i - 1, k); }
  }

  lemma {:induction false} MemoHoldsVerdicts(events: seq<StoredEvent>, b: nat, i: nat, k: nat)
    requires UniqueIds(events) && b < |events| && i <= |events| && k < |events|
    ensures events[k].id in MemoAt(events, b, i) <==> b < k < i
    ensures b < k < i ==> MemoAt(events, b, i)[events[k].id] == Verdict(events, b, k)
  {
    if i > b + 1 { MemoHoldsVerdicts(events, b, i - 1, k); }
  }

  lemma {:induction false} MemoIsKnown(events: seq<StoredEvent>, b: nat, i: nat)
    requires UniqueIds(events) && b < |events| && i <= |events|
    ensures MemoAt(events, b, i).Keys <= IndexOf(events).Keys
  {
    IndexFinds(events);
    if i > b + 1 { MemoIsKnown(events, b, i - 1); }
  }

  lemma {:induction false} MemoIsSound(events: seq<StoredEvent>, b: nat, i: nat)
    requires UniqueIds(events) && b < |events| && i <= |events|
    ensures MemoSound(events[b], IndexOf(events), MemoAt(events, b, i))
  {
    if i > b + 1 {
      MemoIsSound(events, b, i - 1);
      MemoIsKnown(events, b, i - 1);
      IndexFinds(events);
      if Verdict(events, b, i - 1) {
        AnswerIsSound(events[b], IndexOf(events), MemoAt(events, b, i - 1), events[i - 1]);
      }
    }
  }

  /** The chain of causes from `k` comes, within `n` further steps, to the branch or to
      a closure event strictly between the branch and `i`. */
  ghost predicate Meets(events: seq<StoredEvent>, b: nat, i: nat, k: nat, n: nat)
    requires b < |events| && i < |events| && k < |events|
    decreases n
  {
    events[k].causation.Some? &&
    (|| events[k].causation.value == events[b].id
     || exists j: nat :: j < |events| && events[j].id == events[k].causation.value
          && ((b < j < i && Inside(events, b, j)) || (n > 0 && Meets(events, b, i, j, n - 1))))
  }

  /** The walk from `i` has what it needs. */
  ghost predicate Walkable(events: seq<StoredEvent>, b: nat, i: nat)
    requires b < |events| && i < |events|
  {
    b < i && (Follows(events[b], events[i]) || exists n: nat :: Meets(events, b, i, i, n))
  }

  ghost predicate DropsTheClosure(events: seq<StoredEvent>, b: nat, dropped: set<nat>)
    requires b < |events|
  {
    forall i: nat | i < |events| :: i in dropped <==> i == b || Inside(events, b, i)
  }

  lemma {:induction false} MeetsMore(events: seq<StoredEvent>, b: nat, i: nat, k: nat, n: nat)
    requires b < |events| && i < |events| && k < |events| && Meets(events, b, i, k, n)
    ensures Meets(events, b, i, k, n + 1)
    decreases n
  {
    if events[k].causation.value != events[b].id {
      var j: nat :| j < |events| && events[j].id == events[k].causation.value
        && ((b < j < i && Inside(events, b, j)) || (n > 0 && Meets(events, b, i, j, n - 1)));
      if !(b < j < i && Inside(events, b, j)) { MeetsMore(events, b, i, j, n - 1); }
    }
  }

  lemma {:induction false} MeetsIsInside(events: seq<StoredEvent>, b: nat, i: nat, k: nat, n: nat)
    requires UniqueIds(events) && b < |events| && i < |events| && k < |events| && Meets(events, b, i, k, n)
    ensures Inside(events, b, k)
    decreases n
  {
    IndexFinds(events);
    if events[k].causation.value != events[b].id {
      var j: nat :| j < |events| && events[j].id == events[k].causation.value
        && ((b < j < i && Inside(events, b, j)) || (n > 0 && Meets(events, b, i, j, n - 1)));
      if !(b < j < i && Inside(events, b, j)) { MeetsIsInside(events, b, i, j, n - 1); }
    }
    ClosureUnfolds(events[b], IndexOf(events), events[k]);
  }

  lemma {:induction false} FirstMeeting(events: seq<StoredEvent>, b: nat, i: nat, k: nat, n: nat) returns (m: nat)
    requires b < |events| && i < |events| && k < |events| && Meets(events, b, i, k, n)
    ensures Meets(events, b, i, k, m) && (m > 0 ==> !Meets(events, b, i, k, m - 1))
  {
    if n > 0 && Meets(events, b, i, k, n - 1) { m := FirstMeeting(events, b, i, k, n - 1); } else { m := n; }
  }

  ghost predicate Knows(events: seq<StoredEvent>, universe: set<nat>) {
    IndexOf(events).Keys <= universe && forall k: nat | k < |events| :: events[k].id in universe
  }

  /** A walk that says yes met the branch or a closure event already judged. */
  lemma {:induction false} WalkMeets(events: seq<StoredEvent>, b: nat, i: nat, k: nat, visited: set<nat>,
                                     universe: set<nat>)
    requires UniqueIds(events) && b < |events| && i < |events| && k < |events| && Knows(events, universe)
    requires Walk(events[b], IndexOf(events), MemoAt(events, b, i), events[k], visited, universe)
    ensures exists n: nat :: Meets(events, b, i, k, n)
    decreases universe - visited
  {
    IndexFinds(events);
    var cause := events[k].causation.value;
    if cause == events[b].id {
      assert Meets(events, b, i, k, 0);
    } else {
      MemoIsKnown(events, b, i);
      var j: nat :| j < |events| && events[j] == IndexOf(events)[cause];
      MemoHoldsVerdicts(events, b, i, j);
      if cause in MemoAt(events, b, i) {
        MemoIsSound(events, b, i);
        assert Meets(events, b, i, k, 0);
      } else {
        assert events[k].id in universe - visited;
        WalkMeets(events, b, i, j, visited + {events[k].id}, universe);
        var n: nat :| Meets(events, b, i, j, n);
        assert Meets(events, b, i, k, n + 1);
      }
    }
  }

  /** A chain that meets the branch or a closure event already judged is walked to a
      yes: on the shortest way nothing is visited twice. */
  lemma {:induction false} WalkArrives(events: seq<StoredEvent>, b: nat, i: nat, k: nat, n: nat, visited: set<nat>,
                                       universe: set<nat>)
    requires UniqueIds(events) && b < |events| && i < |events| && k < |events| && Knows(events, universe)
    requires forall j: nat | b < j < i && Inside(events, b, j) :: Verdict(events, b, j)
    requires Meets(events, b, i, k, n) && (n > 0 ==> !Meets(events, b, i, k, n - 1))
    requires forall j: nat | j < |events| && events[j].id in visited :: !Meets(events, b, i, j, n)
    ensures Walk(events[b], IndexOf(events), MemoAt(events, b, i), events[k], visited, universe)
    decreases n
  {
    IndexFinds(events);
    if events[k].causation.value != events[b].id {
      var j: nat :| j < |events| && events[j].id == events[k].causation.value
        && ((b < j < i && Inside(events, b, j)) || (n > 0 && Meets(events, b, i, j, n - 1)));
      MemoHoldsVerdicts(events, b, i, j);
      if b < j < i {
        if !Inside(events, b, j) { MeetsIsInside(events, b, i, j, n - 1); }
      } else {
        StillUnmet(events, b, i, k, j, n, visited);
        WalkArrives(events, b, i, j, n - 1, visited + {events[k].id}, universe);
      }
    }
  }

  lemma StillUnmet(events: seq<StoredEvent>, b: nat, i: nat, k: nat, next: nat, n: nat, visited: set<nat>)
    requires UniqueIds(events) && b < |events| && i < |events| && k < |events| && next < |events| && n > 0
    requires events[k].causation == Some(events[next].id) && !Meets(events, b, i, k, n - 1)
    requires forall j: nat | j < |events| && events[j].id in visited :: !Meets(events, b, i, j, n)
    ensures n > 1 ==> !Meets(events, b, i, next, n - 2)
    ensures forall j: nat | j < |events| && events[j].id in visited + {events[k].id} :: !Meets(events, b, i, j, n - 1)
  {
    forall j: nat | j < |events| && events[j].id in visited + {events[k].id} ensures !Meets(events, b, i, j, n - 1) {
      if events[j].id in visited && Meets(events, b, i, j, n - 1) { MeetsMore(events, b, i, j, n - 1); }
    }
  }

  lemma VerdictIsSound(events: seq<StoredEvent>, b: nat, i: nat)
    requires UniqueIds(events) && b < i < |events| && Verdict(events, b, i)
    ensures Inside(events, b, i)
    ensures Walkable(events, b, i)
  {
    IndexFinds(events);
    MemoIsKnown(events, b, i);
    MemoIsSound(events, b, i);
    AnswerIsSound(events[b], IndexOf(events), MemoAt(events, b, i), events[i]);
    MemoHoldsVerdicts(events, b, i, i);
    if !Follows(events[b], events[i]) { WalkMeets(events, b, i, i, {}, IndexOf(events).Keys + {events[i].id}); }
  }

  lemma {:induction false} WalkableIsJudged(events: seq<StoredEvent>, b: nat, i: nat)
    requires UniqueIds(events) && b < i < |events| && Inside(events, b, i)
    requires forall j: nat | j <= i && j != b && Inside(events, b, j) :: Walkable(events, b, j)
    ensures Verdict(events, b, i)
    decreases i
  {
    IndexFinds(events);
    MemoHoldsVerdicts(events, b, i, i);
    if !Follows(events[b], events[i]) {
      forall j: nat | b < j < i && Inside(events, b, j) ensures Verdict(events, b, j) {
        WalkableIsJudged(events, b, j);
      }
      var n: nat :| Meets(events, b, i, i, n);
      var m := FirstMeeting(events, b, i, i, n);
      WalkArrives(events, b, i, i, m, {}, IndexOf(events).Keys + {events[i].id});
    }
  }

  /** Exactly when the loop drops the branch and its closure, on any causation graph:
      every other event of the closure lies after the branch, and follows it or comes,
      up its chain of causes, to the branch or to a closure event between the two. */
  lemma WalkIsExactIff(events: seq<StoredEvent>, b: nat)
    requires UniqueIds(events) && b < |events|
    ensures DropsTheClosure(events, b, DroppedUpTo(events, b, |events|)) <==>
            forall i: nat | i < |events| && i != b && Inside(events, b, i) :: Walkable(events, b, i)
  {
    var dropped := DroppedUpTo(events, b, |events|);
    forall i: nat | i < |events| ensures i in dropped <==> i == b || (b < i && Verdict(events, b, i)) {
      DroppedByVerdict(events, b, |events|, i);
    }
    forall i: nat | b < i < |events| && Verdict(events, b, i) { VerdictIsSound(events, b, i); }
    if forall i: nat | i < |events| && i != b && Inside(events, b, i) :: Walkable(events, b, i) {
      forall i: nat | b < i < |events| && Inside(events, b, i) { WalkableIsJudged(events, b, i); }
    }
  }

  /** What is dropped in any case: later events of the branch's stream, and what the branch
      causes after it. */
  lemma PlainEffectsAreDropped(events: seq<StoredEvent>, b: nat, i: nat)
    requires UniqueIds(events) && b < i < |events|
    requires || (events[i].stream == events[b].stream && events[i].position > events[b].position)
             || events[i].causation == Some(events[b].id)
    ensures i in DroppedUpTo(events, b, |events|)
  {
    DroppedByVerdict(events, b, |events|, i);
    IndexFinds(events);
    MemoHoldsVerdicts(events, b, i, i);
    assert Follows(events[b], events[i])
        || Walk(events[b], IndexOf(events), MemoAt(events, b, i), events[i], {}, IndexOf(events).Keys + {events[i].id});
  }

  /** And why anything else is: another dropped event, or one of the closure before it was
      judged, is its cause. */
  lemma DroppedForAReason(events: seq<StoredEvent>, b: nat, i: nat)
    requires UniqueIds(events) && b < |events| && i in DroppedUpTo(events, b, |events|) && i != b && i < |events|
    ensures b < i
    ensures || (events[i].stream == events[b].stream && events[i].position > events[b].position)
            || events[i].causation == Some(events[b].id)
            || exists j: nat :: j < |events| && events[i].causation == Some(events[j].id) && Inside(events, b, j)
  {
    DroppedByVerdict(events, b, |events|, i);
    VerdictIsSound(events, b, i);
    ClosureUnfolds(events[b], IndexOf(events), events[i]);
    IndexFinds(events);
    if !Follows(events[b], events[i]) && events[i].causation != Some(events[b].id) {
      var cause := IndexOf(events)[events[i].causation.value];
      var j: nat :| j < |events| && events[j] == cause;
      assert Inside(events, b, j);
    }
  }

  /** In well-ordered events the closure lies strictly after the branch. */
  lemma {:induction false} ClosureIsLater(events: seq<StoredEvent>, b: nat, i: nat, n: nat)
    requires WellOrdered(events) && b < |events| && i < |events|
    requires Reaches(events[b], IndexOf(events), events[i], n)
    ensures b < i
    decreases n
  {
    IndexFinds(events);
    if !Follows(events[b], events[i]) && events[i].causation.value != events[b].id {
      var cause := IndexOf(events)[events[i].causation.value];
      var j :| 0 <= j < |events| && events[j] == cause;
      ClosureIsLater(events, b, j, n - 1);
    }
  }

  lemma WellOrderedIsWalkable(events: seq<StoredEvent>, b: nat, i: nat)
    requires WellOrdered(events) && b < |events| && i < |events| && Inside(events, b, i)
    ensures Walkable(events, b, i)
  {
    var branch, index := events[b], IndexOf(events);
    IndexFinds(events);
    var n: nat :| Reaches(branch, index, events[i], n);
    ClosureIsLater(events, b, i, n);
    ClosureUnfolds(branch, index, events[i]);
    if !Follows(branch, events[i]) {
      if events[i].causation.value != branch.id {
        var j :| 0 <= j < |events| && events[j] == index[events[i].causation.value];
        var m: nat :| Reaches(branch, index, events[j], m);
        ClosureIsLater(events, b, j, m);
        assert Inside(events, b, j);
      }
      assert Meets(events, b, i, i, 0);
    }
  }

  /** With causes before effects, as the store gives them, the walk is exact. */
  lemma WellOrderedIsExact(events: seq<StoredEvent>, b: nat)
    requires WellOrdered(events) && b < |events|
    ensures DropsTheClosure(events, b, DroppedUpTo(events, b, |events|))
  {
    WalkIsExactIff(events, b);
    forall i: nat | i < |events| && i != b && Inside(events, b, i) { WellOrderedIsWalkable(events, b, i); }
  }

  datatype Counterfactual = Counterfactual(id: nat, event: Event, streamOverride: Option<string>)

  /** `_inject_counterfactual_events`; an empty override counts as none. */
  function Injected(branch: StoredEvent, cs: seq<Counterfactual>): (es: seq<StoredEvent>)
    ensures |es| == |cs|
    ensures forall i | 0 <= i < |cs| :: IsInjected(branch, cs[i], i, es[i])
  {
    seq(|cs|, i requires 0 <= i < |cs| =>
      var stream := cs[i].streamOverride.GetOr("");
      StoredEvent(cs[i].id, if stream == "" then branch.stream else stream, branch.position + i + 1,
                  branch.globalPosition + i + 1, cs[i].event, None, branch.recordedAt))
  }

  /** `e` is the counterfactual `c`, put in as the one at place `i` after the branch. */
  predicate IsInjected(branch: StoredEvent, c: Counterfactual, i: nat, e: StoredEvent) {
    && e.event == c.event && e.id == c.id && e.causation.None?
    && e.position == branch.position + i + 1 && e.globalPosition == branch.globalPosition + i + 1
    && (c.streamOverride.Some? && c.streamOverride.value != "" ==> e.stream == c.streamOverride.value)
    && (c.streamOverride.None? || c.streamOverride.value == "" ==> e.stream == branch.stream)
  }

  /** The events after the branch that were not dropped, in their order. */
  ghost predicate IsRest(kept: seq<StoredEvent>, events: seq<StoredEvent>, b: nat, dropped: set<nat>) {
    exists places: seq<nat> :: ArePlaces(places, kept, events, b, |events|, dropped)
  }

  ghost predicate ArePlaces(places: seq<nat>, kept: seq<StoredEvent>, events: seq<StoredEvent>, b: nat, until: nat,
                            dropped: set<nat>)
  {
    && |places| == |kept| && until <= |events|
    && (forall i | 0 <= i < |places| :: b < places[i] < until && kept[i] == events[places[i]])
    && (forall i, j | 0 <= i < j < |places| :: places[i] < places[j])
    && (forall k: nat | b < k < until :: k in places <==> k !in dropped)
  }

  lemma {:induction false} KeptAreTheRest(events: seq<StoredEvent>, b: nat, dropped: set<nat>, i: nat)
    returns (places: seq<nat>)
    requires i <= |events|
    ensures ArePlaces(places, KeptAfter(events, b, dropped, i), events, b, i, dropped)
  {
    if i <= b + 1 {
      places := [];
    } else {
      places := KeptAreTheRest(events, b, dropped, i - 1);
      if i - 1 !in dropped {
        OneMorePlace(places, KeptAfter(events, b, dropped, i - 1), events, b, i - 1, dropped);
        places := places + [i - 1];
      }
    }
  }

  lemma OneMorePlace(places: seq<nat>, kept: seq<StoredEvent>, events: seq<StoredEvent>, b: nat, k: nat,
                     dropped: set<nat>)
    requires b < k < |events| && k !in dropped && ArePlaces(places, kept, events, b, k, dropped)
    ensures ArePlaces(places + [k], kept + [events[k]], events, b, k + 1, dropped)
  {
    forall j: nat | b < j < k + 1 ensures j in places + [k] <==> j !in dropped {
      if j < k { assert j in places <==> j !in dropped; }
    }
  }

  /** The simulated events: those before the branch, the counterfactual ones, and the rest. */
  ghost predicate IsSimulation(simulated: seq<StoredEvent>, events: seq<StoredEvent>, b: nat, dropped: set<nat>,
                               cs: seq<Counterfactual>)
    requires b < |events|
  {
    && b + |cs| <= |simulated| && simulated[..b] == events[..b]
    && (forall i: nat | i < |cs| :: IsInjected(events[b], cs[i], i, simulated[b + i]))
    && IsRest(simulated[b + |cs|..], events, b, dropped)
  }

  lemma SimulationIs(events: seq<StoredEvent>, b: nat, dropped: set<nat>, cs: seq<Counterfactual>)
    requires b < |events|
    ensures IsSimulation(events[..b] + Injected(events[b], cs) + KeptAfter(events, b, dropped, |events|),
                         events, b, dropped, cs)
  {
    var injected, kept := Injected(events[b], cs), KeptAfter(events, b, dropped, |events|);
    var simulated := events[..b] + injected + kept;
    var places := KeptAreTheRest(events, b, dropped, |events|);
    assert simulated[..b] == events[..b] && simulated[b + |cs|..] == kept;
    forall i: nat | i < |cs| ensures simulated[b + i] == injected[i] { }
  }

  /** When an injected decision is the last one on the application, the counterfactual
      recommendation and limit are its own. */
  lemma InjectedDecisionDecides(simulated: seq<StoredEvent>, events: seq<StoredEvent>, b: nat, dropped: set<nat>,
                                cs: seq<Counterfactual>, app: string, i: nat)
    requires b < |events| && IsSimulation(simulated, events, b, dropped, cs) && i < |cs|
    requires IsLastDecision(simulated, app, b + i)
    ensures cs[i].event.DecisionGenerated? && cs[i].event.appId == app
    ensures ApplicationOf(simulated, app).recommendation == Some(cs[i].event.recommendation)
    ensures ApplicationOf(simulated, app).assessed == cs[i].event.assessed
  {
    LastDecisionDecides(simulated, app, b + i);
    assert IsInjected(events[b], cs[i], i, simulated[b + i]);
  }

  predicate IsLastDecision(events: seq<StoredEvent>, app: string, k: nat) {
    && k < |events| && DecidesOn(events[k].event, app)
    && forall j | k < j < |events| :: !DecidesOn(events[j].event, app)
  }

  predicate DecidesOn(e: Event, app: string) { e.DecisionGenerated? && e.appId == app }

  /** The last decision on an application gives the projected recommendation and limit. */
  lemma {:induction false} LastDecisionDecides(events: seq<StoredEvent>, app: string, k: nat)
    requires IsLastDecision(events, app, k)
    ensures ApplicationOf(events, app).recommendation == Some(events[k].event.recommendation)
    ensures ApplicationOf(events, app).assessed == events[k].event.assessed
  {
    if k < |events| - 1 { LastDecisionDecides(events[..|events| - 1], app, k); }
  }

  /** The application summary as the projector keeps it; None stands for UNKNOWN. */
  datatype Application = Application(
    state: Option<LA.LoanStatus>, recommendation: Option<Recommendation>, finalDecision: Option<Recommendation>,
    approved: Option<real>, assessed: Option<real>)

  function ApplicationStep(a: Application, e: Event): Application {
    match e
    case ApplicationSubmitted(_, _) => a.(state := Some(LA.Submitted))
    case DecisionGenerated(_, r, _, _, _, assessed) =>
      a.(state := Some(LA.StatusAfter(r)), recommendation := Some(r), assessed := assessed)
    case ApplicationApproved(_, amount) =>
      a.(state := Some(LA.FinalApproved), finalDecision := Some(Approve), approved := Some(amount))
    case ApplicationDeclined(_) => a.(state := Some(LA.FinalDeclined), finalDecision := Some(Decline))
    case _ => a
  }

  function ApplicationOf(events: seq<StoredEvent>, app: string): Application {
    if events == [] then Application(None, None, None, None, None)
    else
      var before, e := ApplicationOf(events[..|events| - 1], app), events[|events| - 1].event;
      if AppOf(e) == Some(app) then ApplicationStep(before, e) else before
  }

  /** The assessed limit of the application's last decision, whether or not it has one. */
  function LastLimit(events: seq<StoredEvent>, app: string): Option<real> {
    if events == [] then None
    else
      var e := events[|events| - 1].event;
      if e.DecisionGenerated? && e.appId == app then e.assessed else LastLimit(events[..|events| - 1], app)
  }

  /** The projector's summary is the regulatory one, with the limit of the last decision. */
  lemma {:induction false} ApplicationIsTheRegulatoryOne(events: seq<StoredEvent>, app: string)
    ensures var a, r := ApplicationOf(events, app), Summary.RegulatoryOf(events, app);
            && a.state == r.state && a.recommendation == r.recommendation
            && a.finalDecision == r.finalDecision && a.approved == r.approved
            && a.assessed == LastLimit(events, app)
  {
    if events != [] { ApplicationIsTheRegulatoryOne(events[..|events| - 1], app); }
  }

  /** `_compute_application_summary` of the projector. */
  method ComputeApplication(events: seq<StoredEvent>, app: string) returns (a: Application)
    ensures a == ApplicationOf(events, app)
  {
    a := Application(None, None, None, None, None);
    for i := 0 to |events|
      invariant a == ApplicationOf(events[..i], app)
    {
      assert events[..i + 1][..i] == events[..i];
      var e := events[i].event;
      if AppOf(e) != Some(app) { continue; }
      match e {
        case ApplicationSubmitted(_, _) => a := a.(state := Some(LA.Submitted));
        case DecisionGenerated(_, r, _, _, _, assessed) =>
          a := a.(recommendation := Some(r), assessed := assessed);
          if r == Approve { a := a.(state := Some(LA.ApprovedPendingHuman)); }
          else if r == Decline { a := a.(state := Some(LA.DeclinedPendingHuman)); }
          else { a := a.(state := Some(LA.PendingDecision)); }
        case ApplicationApproved(_, amount) =>
          a := a.(state := Some(LA.FinalApproved), finalDecision := Some(Approve), approved := Some(amount));
        case ApplicationDeclined(_) => a := a.(state := Some(LA.FinalDeclined), finalDecision := Some(Decline));
        case _ =>
      }
    }
    assert events[..|events|] == events;
  }

  /** What the projector reports for a list of events. */
  datatype Projected = Projected(application: Application, compliance: ComplianceView.ViewState)

  ghost predicate Projects(p: Projected, events: seq<StoredEvent>, app: string) {
    && p.application == ApplicationOf(events, app)
    && p.compliance == ComplianceView.BatchOf(events, app).(status := ComplianceView.BatchStatus(events, app))
  }

  /** `_compute_outcome`. */
  method ComputeOutcome(events: seq<StoredEvent>, app: string) returns (p: Projected)
    ensures Projects(p, events, app)
  {
    var application := ComputeApplication(events, app);
    var compliance := ComplianceView.ComputeComplianceState(events, app);
    p := Projected(application, compliance);
  }

  datatype Outcome = Outcome(
    branch: nat, dropped: set<nat>, divergences: nat, simulated: seq<StoredEvent>,
    actual: Projected, counterfactual: Projected)

  /** `run_what_if` on the related events in the order its query gives them; the
      indexes in `dropped` are those of the divergences. */
  method RunWhatIf(events: seq<StoredEvent>, app: string, isBranch: Event -> bool, cs: seq<Counterfactual>)
    returns (r: Option<Outcome>)
    requires forall i, j | 0 <= i < j < |events| :: events[i].globalPosition < events[j].globalPosition
    ensures r.None? <==> cs == [] || forall i | 0 <= i < |events| :: !isBranch(events[i].event)
    ensures r.Some? ==> var o := r.value;
            && o.branch < |events| && isBranch(events[o.branch].event)
            && (forall i | 0 <= i < o.branch :: !isBranch(events[i].event))
            && (forall i | i in o.dropped :: o.branch <= i < |events|)
            && o.dropped == DroppedUpTo(events, o.branch, |events|)
            && (WellOrdered(events) ==> DropsTheClosure(events, o.branch, o.dropped))
            && |o.simulated| == |events| - o.divergences + |cs| && o.divergences == |o.dropped|
            && IsSimulation(o.simulated, events, o.branch, o.dropped, cs)
            && Projects(o.actual, events, app) && Projects(o.counterfactual, o.simulated, app)
  {
    if cs == [] { return None; }
    var b := 0;
    while b < |events| && !isBranch(events[b].event)
      invariant b <= |events| && forall i | 0 <= i < b :: !isBranch(events[i].event)
    {
      b := b + 1;
    }
    if b == |events| { return None; }
    var dropped, divergences, kept := SplitAfter(events, b);
    var simulated := events[..b] + Injected(events[b], cs) + kept;
    SimulationIs(events, b, dropped, cs);
    var actual := ComputeOutcome(events, app);
    var altered := ComputeOutcome(simulated, app);
    if WellOrdered(events) { WellOrderedIsExact(events, b); }
    r := Some(Outcome(b, dropped, divergences, simulated, actual, altered));
  }

  /** The loop over the events after the branch. */
  method SplitAfter(events: seq<StoredEvent>, b: nat)
    returns (dropped: set<nat>, divergences: nat, kept: seq<StoredEvent>)
    requires b < |events|
    ensures forall i | i in dropped :: b <= i < |events|
    ensures divergences == |dropped| && |kept| == |events| - b - divergences
    ensures dropped == DroppedUpTo(events, b, |events|)
    ensures kept == KeptAfter(events, b, dropped, |events|)
  {
    var index := IndexOf(events);
    var memo: map<nat, bool> := map[];
    dropped, divergences, kept := {b}, 1, [];
    for i := b + 1 to |events|
      invariant forall k | k in dropped :: b <= k < i
      invariant divergences == |dropped|
      invariant kept == KeptAfter(events, b, dropped, i) && |kept| == i - b - divergences
      invariant memo == MemoAt(events, b, i) && dropped == DroppedUpTo(events, b, i)
    {
      var dependent;
      dependent, memo := IsDependent(events[b], index, memo, events[i]);
      KeptGrows(events, b, dropped, i);
      if dependent {
        dropped, divergences := dropped + {i}, divergences + 1;
        continue;
      }
      kept := kept + [events[i]];
    }
  }

  /** The events after the branch and before `i` that were not dropped. */
  function KeptAfter(events: seq<StoredEvent>, b: nat, dropped: set<nat>, i: nat): seq<StoredEvent>
    requires i <= |events|
  {
    if i <= b + 1 then []
    else KeptAfter(events, b, dropped, i - 1) + if i - 1 in dropped then [] else [events[i - 1]]
  }

  lemma {:induction false} KeptIgnoresLater(events: seq<StoredEvent>, b: nat, dropped: set<nat>, i: nat, more: nat)
    requires i <= |events| && more >= i
    ensures KeptAfter(events, b, dropped + {more}, i) == KeptAfter(events, b, dropped, i)
  {
    if i > b + 1 { KeptIgnoresLater(events, b, dropped, i - 1, more); }
  }

  lemma KeptGrows(events: seq<StoredEvent>, b: nat, dropped: set<nat>, i: nat)
    requires b < i < |events| && i !in dropped
    ensures KeptAfter(events, b, dropped + {i}, i + 1) == KeptAfter(events, b, dropped, i)
    ensures KeptAfter(events, b, dropped, i + 1) == KeptAfter(events, b, dropped, i) + [events[i]]
  {
    KeptIgnoresLater(events, b, dropped, i, i);
  }

  /** The loop drops whatever an earlier dropped event causes, on any causation graph;
      only an event that names a later one as its cause can be kept without it. */
  lemma KeptIsNotCausedByDropped(events: seq<StoredEvent>, b: nat, i: nat, j: nat)
    requires UniqueIds(events) && b < i < |events| && j < i
    requires events[i].causation == Some(events[j].id) && j in DroppedUpTo(events, b, |events|)
    ensures i in DroppedUpTo(events, b, |events|)
  {
    IndexFinds(events);
    DroppedByVerdict(events, b, |events|, i);
    DroppedByVerdict(events, b, |events|, j);
    MemoHoldsVerdicts(events, b, i, i);
    MemoHoldsVerdicts(events, b, i, j);
    MemoIsKnown(events, b, i);
  }

  /** So with causes before effects no kept event was caused by a dropped one. */
  lemma NoEffectOutlivesItsCause(events: seq<StoredEvent>, b: nat, i: nat, j: nat)
    requires WellOrdered(events) && b < |events| && i < |events| && j < |events|
    requires events[i].causation == Some(events[j].id) && j in DroppedUpTo(events, b, |events|)
    ensures i in DroppedUpTo(events, b, |events|)
  {
    DroppedByVerdict(events, b, |events|, j);
    KeptIsNotCausedByDropped(events, b, i, j);
  }

  /** How the walk fails: of three events, the second is caused by the third, which
      follows the branch; the second is in the closure, and the loop keeps it. */
  lemma ForwardCauseIsMissed(branch: StoredEvent, forward: StoredEvent, follower: StoredEvent)
    requires branch.id != forward.id && branch.id != follower.id && forward.id != follower.id
    requires Follows(branch, follower) && follower.causation.None?
    requires !Follows(branch, forward) && forward.causation == Some(follower.id)
    ensures var events := [branch, forward, follower];
            && Inside(events, 0, 1) && !Walkable(events, 0, 1) && 1 !in DroppedUpTo(events, 0, 3)
            && 2 in DroppedUpTo(events, 0, 3) && !DropsTheClosure(events, 0, DroppedUpTo(events, 0, 3))
  {
    var events := [branch, forward, follower];
    assert UniqueIds(events);
    IndexFinds(events);
    var index := IndexOf(events);
    assert index[events[2].id] == follower;
    assert Reaches(branch, index, follower, 0);
    assert Reaches(branch, index, forward, 1);
    assert Inside(events, 0, 1);
    forall n: nat ensures !Meets(events, 0, 1, 1, n) { assert events[2].causation.None?; }
    DroppedByVerdict(events, 0, 3, 1);
    DroppedByVerdict(events, 0, 3, 2);
    if Verdict(events, 0, 1) { VerdictIsSound(events, 0, 1); }
    MemoHoldsVerdicts(events, 0, 2, 2);
  }

  /* ---------- the related events and the whole log ---------- */

  /** What the query for an application selects. */
  predicate Related(e: StoredEvent, app: string) {
    e.stream == LoanStream(app) || AppOf(e.event) == Some(app)
  }

  function RelatedEvents(log: seq<StoredEvent>, app: string): seq<StoredEvent> {
    if log == [] then []
    else
      RelatedEvents(log[..|log| - 1], app) + if Related(log[|log| - 1], app) then [log[|log| - 1]] else []
  }

  /** What the query loads: the loan stream's events and those that name the application. */
  lemma {:induction false} RelatedEventsAre(log: seq<StoredEvent>, app: string, e: StoredEvent)
    ensures e in RelatedEvents(log, app) <==>
            e in log && (e.stream == "loan-" + app || AppOf(e.event) == Some(app))
  {
    if log != [] {
      RelatedEventsAre(log[..|log| - 1], app, e);
      assert log == log[..|log| - 1] + [log[|log| - 1]];
    }
  }

  lemma {:induction false} RelatedIndex(log: seq<StoredEvent>, app: string, k: nat)
    requires UniqueIds(log)
    ensures k in IndexOf(RelatedEvents(log, app)) <==> k in IndexOf(log) && Related(IndexOf(log)[k], app)
    ensures k in IndexOf(RelatedEvents(log, app)) ==> IndexOf(RelatedEvents(log, app))[k] == IndexOf(log)[k]
  {
    if log != [] {
      var before, e := log[..|log| - 1], log[|log| - 1];
      RelatedIndex(before, app, k);
      IndexFinds(before);
      var related := RelatedEvents(before, app);
      assert (related + [e])[..|related|] == related;
      assert related + [] == related;
    }
  }

  /** The index of the related events is the whole index, restricted. */
  ghost predicate Restricts(part: Index, whole: Index, app: string) {
    forall k: nat ::
      && (k in part <==> k in whole && Related(whole[k], app))
      && (k in part ==> part[k] == whole[k])
  }

  lemma {:induction false} PartReachesWhole(branch: StoredEvent, part: Index, whole: Index, app: string, e: StoredEvent,
                                            n: nat)
    requires Restricts(part, whole, app) && Reaches(branch, part, e, n)
    ensures Reaches(branch, whole, e, n)
    decreases n
  {
    if !Follows(branch, e) && e.causation.value != branch.id {
      PartReachesWhole(branch, part, whole, app, part[e.causation.value], n - 1);
    }
  }

  /** An event of the log that is not related, in the closure, and a related event's cause. */
  ghost predicate HiddenCause(branch: StoredEvent, whole: Index, app: string, e: StoredEvent) {
    && e.causation.Some? && e.causation.value != branch.id && e.causation.value in whole
    && !Related(whole[e.causation.value], app) && InClosure(branch, whole, whole[e.causation.value])
  }

  lemma {:induction false} WholeReachesPart(branch: StoredEvent, part: Index, whole: Index, app: string, e: StoredEvent,
                                            n: nat)
    requires Restricts(part, whole, app) && Related(e, app) && Reaches(branch, whole, e, n)
    requires forall k | k in whole && Related(whole[k], app) && HiddenCause(branch, whole, app, whole[k]) ::
               Follows(branch, whole[k])
    requires e.id in whole && whole[e.id] == e && forall k | k in whole :: whole[k].id == k
    ensures Reaches(branch, part, e, n)
    decreases n
  {
    if !Follows(branch, e) && e.causation.value != branch.id {
      var cause := whole[e.causation.value];
      assert InClosure(branch, whole, cause);
      WholeReachesPart(branch, part, whole, app, cause, n - 1);
    }
  }

  /** The closure inside the related events is the closure in the whole log, cut to
      them, exactly when a related event whose cause is a closure event that is not
      related follows the branch anyway.  Session starts and loaded contexts carry no
      application, so a chain of causes can run through one. */
  lemma RelatedClosureIff(log: seq<StoredEvent>, app: string, branch: StoredEvent)
    requires UniqueIds(log) && branch in log && Related(branch, app)
    ensures var whole, part := IndexOf(log), IndexOf(RelatedEvents(log, app));
            (forall k | k in whole && Related(whole[k], app) ::
               InClosure(branch, part, whole[k]) <==> InClosure(branch, whole, whole[k]))
            <==>
            (forall k | k in whole && Related(whole[k], app) && HiddenCause(branch, whole, app, whole[k]) ::
               Follows(branch, whole[k]))
  {
    var whole, part := IndexOf(log), IndexOf(RelatedEvents(log, app));
    forall k: nat { RelatedIndex(log, app, k); }
    forall k | k in whole && Related(whole[k], app) && InClosure(branch, part, whole[k])
      ensures InClosure(branch, whole, whole[k])
    {
      var n: nat :| Reaches(branch, part, whole[k], n);
      PartReachesWhole(branch, part, whole, app, whole[k], n);
    }
    if forall k | k in whole && Related(whole[k], app) && HiddenCause(branch, whole, app, whole[k]) ::
         Follows(branch, whole[k])
    {
      forall k | k in whole && Related(whole[k], app) && InClosure(branch, whole, whole[k])
        ensures InClosure(branch, part, whole[k])
      {
        var n: nat :| Reaches(branch, whole, whole[k], n);
        WholeReachesPart(branch, part, whole, app, whole[k], n);
      }
    }
    forall k | k in whole && Related(whole[k], app) && HiddenCause(branch, whole, app, whole[k])
      && InClosure(branch, part, whole[k])
      ensures Follows(branch, whole[k])
    {
      ClosureUnfolds(branch, part, whole[k]);
    }
    forall k | k in whole && Related(whole[k], app) && HiddenCause(branch, whole, app, whole[k])
      ensures InClosure(branch, whole, whole[k])
    {
      ClosureUnfolds(branch, whole, whole[k]);
    }
  }
}
