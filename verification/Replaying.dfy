/** Rebuilding an aggregate by applying its events in order; the first event that
    does not apply makes the whole replay fail. */
module Replaying {
  import opened Prelude

  function Replay<S, E>(step: (S, E) -> Result<S, Error>, start: S, events: seq<E>): Result<S, Error> {
    if events == [] then Ok(start)
    else
      match Replay(step, start, events[..|events| - 1])
      case Err(e) => Err(e)
      case Ok(s) => step(s, events[|events| - 1])
  }

  lemma {:induction false} ReplayConcat<S, E>(step: (S, E) -> Result<S, Error>, start: S, a: seq<E>, b: seq<E>)
    ensures Replay(step, start, a + b) ==
            match Replay(step, start, a)
            case Ok(s) => Replay(step, s, b)
            case Err(e) => Err(e)
  {
    if b == [] {
      assert a + b == a;
    } else {
      assert (a + b)[..|a + b| - 1] == a + b[..|b| - 1];
      ReplayConcat(step, start, a, b[..|b| - 1]);
    }
  }

  lemma ReplayOne<S, E>(step: (S, E) -> Result<S, Error>, start: S, e: E)
    ensures Replay(step, start, [e]) == step(start, e)
  {
    assert [e][..0] == [];
  }

  lemma ReplayMore<S, E>(step: (S, E) -> Result<S, Error>, start: S, events: seq<E>, e: E)
    ensures Replay(step, start, events + [e]) ==
            match Replay(step, start, events)
            case Ok(s) => step(s, e)
            case Err(x) => Err(x)
  {
    assert (events + [e])[..|events|] == events;
  }

  /** Some event of the list is such an event. */
  predicate Has<E>(events: seq<E>, wanted: E -> bool) {
    exists i | 0 <= i < |events| :: wanted(events[i])
  }

  lemma HasMore<E>(events: seq<E>, e: E, wanted: E -> bool)
    ensures Has(events + [e], wanted) <==> Has(events, wanted) || wanted(e)
  {
    assert (events + [e])[|events|] == e;
    assert forall i | 0 <= i < |events| :: (events + [e])[i] == events[i];
  }
}
