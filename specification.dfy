/**
 * The given/when/then test harness for deciders and the given/then harness for
 * views: rebuild the state by folding the given events, decide the command (for a
 * decider), and compare with what is expected.
 */
module Specification {
  import opened Wrappers
  import opened StateMachine

  /** A thrown error, identified by its message. */
  datatype Error = Error(message: string)

  /** The error `thenThrows` raises itself when the handler returned normally. */
  const HandlerDidNotFail: Error := Error("Handler did not fail as expected")

  // --------------------------------------------------------------------------
  // Deciders: given / when / then
  // --------------------------------------------------------------------------

  /** `handle()` of the decider harness: fold the given events from the initial state, then
      decide. A decider here is a pair of total functions, so handling never throws. */
  function DeciderHandle<C, S, E>(decider: Decider<C, S, E>, given: seq<E>, when: C): (r: Result<seq<E>, Error>)
    ensures r.Success?
    ensures given == [] ==> r.value == decider.decide(when, decider.initialState)
  {
    Success(decider.decide(when, Fold(decider.evolve, decider.initialState, given)))
  }

  /** `then(expected)` passes when the handler returns exactly the expected events, in order. */
  predicate DeciderThen<C, S, E(==)>(decider: Decider<C, S, E>, given: seq<E>, when: C, expected: seq<E>)
  {
    match DeciderHandle(decider, given, when)
    case Success(events) => events == expected
    case Failure(_) => false
  }

  /** The outcome of a scenario depends on the given events only through the state they fold to:
      splitting the given events anywhere and folding the second part from the state the first
      part reached yields the same verdict. */
  lemma DeciderThenSplits<C, S, E>(decider: Decider<C, S, E>, xs: seq<E>, ys: seq<E>, when: C, expected: seq<E>)
    ensures DeciderThen(decider, xs + ys, when, expected)
        <==> decider.decide(when, Fold(decider.evolve, Fold(decider.evolve, decider.initialState, xs), ys)) == expected
  {
    FoldConcat(decider.evolve, decider.initialState, xs, ys);
  }

  // --------------------------------------------------------------------------
  // Views: given / then
  // --------------------------------------------------------------------------

  /** `handle()` of the view harness: fold the given events from the initial state. */
  function ViewHandle<S, E>(view: View<S, E>, given: seq<E>): (r: Result<S, Error>)
    ensures r.Success?
    ensures given == [] ==> r.value == view.initialState
  {
    Success(Fold(view.evolve, view.initialState, given))
  }

  /** `then(expected)` passes when the folded state equals the expected one. */
  predicate ViewThen<S(==), E>(view: View<S, E>, given: seq<E>, expected: S)
  {
    match ViewHandle(view, given)
    case Success(state) => state == expected
    case Failure(_) => false
  }

  /** Folding more events continues from the state the earlier ones reached. */
  lemma ViewThenSplits<S, E>(view: View<S, E>, xs: seq<E>, ys: seq<E>, expected: S)
    ensures ViewThen(view, xs + ys, expected)
        <==> Fold(view.evolve, Fold(view.evolve, view.initialState, xs), ys) == expected
  {
    FoldConcat(view.evolve, view.initialState, xs, ys);
  }

  // --------------------------------------------------------------------------
  // thenThrows
  // --------------------------------------------------------------------------

  /** The error the `catch` block receives. The "did not fail" error is thrown inside the
      same `try`, so when the handler returns normally it is that error that is caught. */
  function CaughtAsWritten<T>(handled: Result<T, Error>): Error
  {
    match handled
    case Failure(e) => e
    case Success(_) => HandlerDidNotFail
  }

  /** `thenThrows(check)` as written: it passes when there is no check or the check accepts the
      caught error, whether or not the handler threw. */
  predicate ThenThrowsAsWritten<T>(handled: Result<T, Error>, check: Option<Error -> bool>)
  {
    check.None? || check.value(CaughtAsWritten(handled))
  }

  /** `thenThrows(check)` as intended: it passes only when the handler threw an error that the
      check, if any, accepts. */
  predicate ThenThrows<T>(handled: Result<T, Error>, check: Option<Error -> bool>)
  {
    handled.Failure? && (check.None? || check.value(handled.error))
  }

  predicate DeciderThenThrowsAsWritten<C, S, E>(decider: Decider<C, S, E>, given: seq<E>, when: C, check: Option<Error -> bool>)
  {
    ThenThrowsAsWritten(DeciderHandle(decider, given, when), check)
  }

  predicate DeciderThenThrows<C, S, E>(decider: Decider<C, S, E>, given: seq<E>, when: C, check: Option<Error -> bool>)
  {
    ThenThrows(DeciderHandle(decider, given, when), check)
  }

  predicate ViewThenThrowsAsWritten<S, E>(view: View<S, E>, given: seq<E>, check: Option<Error -> bool>)
  {
    ThenThrowsAsWritten(ViewHandle(view, given), check)
  }

  predicate ViewThenThrows<S, E>(view: View<S, E>, given: seq<E>, check: Option<Error -> bool>)
  {
    ThenThrows(ViewHandle(view, given), check)
  }

  /** The discrepancy: for every decider, history and command, handling returns normally, yet
      `thenThrows()` without a check passes, and so does a check that accepts the harness's own
      "did not fail" error. The intended harness rejects both. */
  lemma DeciderThenThrowsPassesWithoutThrow<C, S, E>(decider: Decider<C, S, E>, given: seq<E>, when: C)
    ensures DeciderHandle(decider, given, when).Success?
    ensures DeciderThenThrowsAsWritten(decider, given, when, None)
    ensures DeciderThenThrowsAsWritten(decider, given, when, Some((e: Error) => e.message == "Handler did not fail as expected"))
    ensures !DeciderThenThrows(decider, given, when, None)
  {
  }

  /** The same discrepancy in the view harness. */
  lemma ViewThenThrowsPassesWithoutThrow<S, E>(view: View<S, E>, given: seq<E>)
    ensures ViewHandle(view, given).Success?
    ensures ViewThenThrowsAsWritten(view, given, None)
    ensures !ViewThenThrows(view, given, None)
  {
  }

  /** As intended, `thenThrows` can never pass for a decider or a view: both are total. */
  lemma ThenThrowsNeverPasses<C, S, E>(decider: Decider<C, S, E>, view: View<S, E>, given: seq<E>, when: C, check: Option<Error -> bool>)
    ensures !DeciderThenThrows(decider, given, when, check)
    ensures !ViewThenThrows(view, given, check)
  {
  }

  /** As written, with a check, `thenThrows` on a total handler passes exactly when the check
      accepts the harness's own "did not fail" error. */
  lemma ThenThrowsAsWrittenJudgesOwnError<T>(value: T, check: Error -> bool)
    ensures ThenThrowsAsWritten(Success(value), Some(check)) <==> check(HandlerDidNotFail)
  {
  }
}
