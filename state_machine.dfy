/**
 * The two shapes of pure state machine the domain is written in, and the
 * left fold that rebuilds a state from an event history.
 */
module StateMachine {

  /** A command handler: `decide` turns a command and a state into new events,
      `evolve` folds one event into a state, starting from `initialState`. */
  datatype Decider<!C, !S, !E> = Decider(decide: (C, S) -> seq<E>, evolve: (S, E) -> S, initialState: S)

  /** An event handler that projects events into a view state. */
  datatype View<!S, !E> = View(evolve: (S, E) -> S, initialState: S)

  /** `events.reduce(evolve, init)`: events are applied oldest first. */
  function Fold<S, E>(evolve: (S, E) -> S, init: S, events: seq<E>): S
    decreases |events|
  {
    if events == [] then init else Fold(evolve, evolve(init, events[0]), events[1..])
  }

  /** Folding a concatenation is folding the second part from the state the first part reached. */
  lemma {:induction false} FoldConcat<S, E>(evolve: (S, E) -> S, init: S, xs: seq<E>, ys: seq<E>)
    ensures Fold(evolve, init, xs + ys) == Fold(evolve, Fold(evolve, init, xs), ys)
    decreases |xs|
  {
    if xs == [] {
      assert xs + ys == ys;
    } else {
      assert (xs + ys)[1..] == xs[1..] + ys;
      FoldConcat(evolve, evolve(init, xs[0]), xs[1..], ys);
    }
  }

  /** Appending one event folds it into the state the history reached. */
  lemma FoldSnoc<S, E>(evolve: (S, E) -> S, init: S, xs: seq<E>, e: E)
    ensures Fold(evolve, init, xs + [e]) == evolve(Fold(evolve, init, xs), e)
  {
    FoldConcat(evolve, init, xs, [e]);
    assert [e][1..] == [];
  }

  /** A one-event history folds to that event applied to the initial state. */
  lemma FoldOne<S, E>(evolve: (S, E) -> S, init: S, e: E)
    ensures Fold(evolve, init, [e]) == evolve(init, e)
  {
    assert [e][1..] == [];
  }

  /** Two evolve functions that agree on every input rebuild the same state from every history. */
  lemma {:induction false} FoldAgrees<S, E>(f: (S, E) -> S, g: (S, E) -> S, init: S, events: seq<E>)
    requires forall s, e :: f(s, e) == g(s, e)
    ensures Fold(f, init, events) == Fold(g, init, events)
    decreases |events|
  {
    if events != [] {
      FoldAgrees(f, g, f(init, events[0]), events[1..]);
    }
  }

  /** A property every event preserves holds of every state reached from a state that has it. */
  lemma {:induction false} FoldPreserves<S, E>(evolve: (S, E) -> S, inv: S -> bool, init: S, events: seq<E>)
    requires inv(init)
    requires forall s, e :: inv(s) ==> inv(evolve(s, e))
    ensures inv(Fold(evolve, init, events))
    decreases |events|
  {
    if events != [] {
      FoldPreserves(evolve, inv, evolve(init, events[0]), events[1..]);
    }
  }
}
